/** What createBooking, rescheduleBooking and updateBookingStatus do to the tables. */
module Bookings {
  import opened Options
  import opened Store
  import opened BookingRules

  /** Cancelling at least this long before the start refunds in full, later cancelling refunds half. */
  const FULL_REFUND_MS := 1 * HOUR

  datatype Actor = Actor(user: UserId, isOrgAdmin: bool)

  /** What the guards on plan, organization and rules answer. */
  datatype Guards = Guards(withinPlan: bool, orgActive: bool, foreign: bool, broken: Option<Error>)

  datatype CreateRequest = CreateRequest(
    id: BookingId, actor: Actor, user: UserId, resource: ResourceId, start: int, end: int, guards: Guards)

  datatype RescheduleRequest = RescheduleRequest(id: BookingId, start: int, end: int, guards: Guards)

  /** The overlap query: does booking b keep [start, end) of resource r from being booked? */
  predicate Conflicts(b: Booking, r: ResourceId, start: int, end: int, buffer: nat)
  {
    b.resource == r && b.Blocking() && b.start < end + buffer && b.end > start - buffer
  }

  predicate SlotTaken(bookings: map<BookingId, Booking>, r: ResourceId, start: int, end: int, buffer: nat)
  {
    exists id :: id in bookings && Conflicts(bookings[id], r, start, end, buffer)
  }

  /** createBooking charges the exact duration. */
  function ExactCost(ms: int, rate: real): real
  {
    (ms as real / 3_600_000.0) * rate
  }

  /** Hours to two decimals, in hundredths. */
  function RoundedHours(ms: int): int
  {
    (ms + 18_000) / 36_000
  }

  /** rescheduleBooking charges the duration rounded to two decimals of an hour. */
  function RoundedCost(ms: int, rate: real): real
  {
    (RoundedHours(ms) as real / 100.0) * rate
  }

  /** An Int column takes no fraction. */
  predicate Integral(x: real)
  {
    x == x.Floor as real
  }

  /** Write one booking row; its user pays `paid` (or gets back -paid). */
  function Write(s: State, id: BookingId, b: Booking, paid: int): State
  {
    s.(bookings := s.bookings[id := b],
       credits := Adjust(s.credits, b.user, -paid),
       charges := s.charges[id := Balance(s.charges, id) + paid])
  }

  function Create(s: State, q: CreateRequest): Outcome
  {
    if !q.guards.withinPlan then Refused(OverPlanLimit)
    else if q.start < s.now || q.end <= q.start then Refused(InvalidSlot)
    else if q.resource !in s.resources then Refused(if q.guards.foreign then ForeignResource else NotFound)
    else if !q.guards.orgActive then Refused(NotFound)
    else
      var r := s.resources[q.resource];
      var cost := ExactCost(q.end - q.start, r.rate);
      var pending := PendingTotal(s.bookings, q.user);
      var confirmed := q.actor.isOrgAdmin || r.autoConfirm;
      if r.maintenance then Refused(UnderMaintenance)
      else if q.guards.broken.Some? then Refused(q.guards.broken.value)
      else if SlotTaken(s.bookings, q.resource, q.start, q.end, r.buffer) then Refused(AlreadyBooked)
      else if q.user !in s.credits then Refused(NotFound)
      else if s.credits[q.user] as real < cost + pending as real then Refused(InsufficientCredits)
      else if !Integral(cost) then Refused(NotIntegral)
      else if q.id in s.bookings then Refused(DuplicateKey)
      else if confirmed && s.credits[q.user] < cost.Floor then Refused(InsufficientCredits)
      else
        var paid := if confirmed then cost.Floor else 0;
        var b := Booking(q.user, q.resource, q.start, q.end, cost.Floor, if confirmed then Confirmed else Pending);
        Done(Write(s, q.id, b, paid))
  }

  function Reschedule(s: State, q: RescheduleRequest): Outcome
  {
    if q.id !in s.bookings then Refused(NotFound)
    else
      var b := s.bookings[q.id];
      if !b.Blocking() then Refused(NotReschedulable)
      else if q.start < s.now || q.end <= q.start then Refused(InvalidSlot)
      else if b.resource !in s.resources || !q.guards.orgActive then Refused(NotFound)
      else
        var r := s.resources[b.resource];
        var cost := RoundedCost(q.end - q.start, r.rate);
        var alreadyPaid := if b.status == Confirmed then b.cost else 0;
        var toPay := cost - alreadyPaid as real;
        var pending := PendingTotal(s.bookings - {q.id}, b.user);
        if r.maintenance then Refused(UnderMaintenance)
        else if RoundedHours(q.end - q.start) <= 0 then Refused(InvalidSlot)
        else if q.guards.broken.Some? then Refused(q.guards.broken.value)
        else if SlotTaken(s.bookings - {q.id}, b.resource, q.start, q.end, r.buffer) then Refused(AlreadyBooked)
        else if b.user !in s.credits then Refused(NotFound)
        else if toPay > 0.0 && s.credits[b.user] as real < toPay + pending as real then Refused(InsufficientCredits)
        else if !Integral(cost) then Refused(NotIntegral)
        else
          var paid := if b.status == Confirmed then cost.Floor - b.cost else 0;
          Done(Write(s, q.id, b.(start := q.start, end := q.end, cost := cost.Floor), paid))
  }

  /** Credits that a CONFIRMED booking cancelled at `now` gives back; None when that is half of an odd cost. */
  function CancelRefund(b: Booking, now: int): Option<int>
  {
    if b.start - now >= FULL_REFUND_MS then Some(b.cost)
    else if b.cost % 2 == 0 then Some(b.cost / 2)
    else None
  }

  /** updateBookingStatus: any status may be asked for, only confirming is reserved to organization admins. */
  function SetStatus(s: State, actor: Actor, id: BookingId, to: Status): Outcome
  {
    if id !in s.bookings then Refused(NotFound)
    else
      var b := s.bookings[id];
      var moved := b.(status := to);
      if !actor.isOrgAdmin && b.user != actor.user then Refused(Forbidden)
      else if b.status == Pending && to == Confirmed then
        if !actor.isOrgAdmin then Refused(Forbidden)
        else if Balance(s.credits, b.user) < b.cost || Balance(s.credits, b.user) < 0 then Refused(InsufficientCredits)
        else Done(Write(s, id, moved, b.cost))
      else if b.status == Confirmed && to == Cancelled then
        match CancelRefund(b, s.now)
        case None => if b.cost > 0 then Refused(NotIntegral) else Done(Write(s, id, moved, 0))
        case Some(refund) => Done(Write(s, id, moved, if refund > 0 then -refund else 0))
      else if b.status == CheckedIn && to == Completed then
        if b.resource !in s.resources then Refused(NotFound)
        else Done(Write(s.(resources := s.resources[b.resource := Released(s.resources[b.resource])]), id, moved, 0))
      else Done(Write(s, id, moved, 0))
  }

  /** The answers for a request, from the resource's rules and what is read about the organization. */
  function GuardsFor(s: State, office: Office, r: ResourceId, start: int, hours: real, offset: int): Guards
  {
    Guards(WithinPlan(office), office.active, office.foreign,
           if r in s.resources then RuleBroken(s.resources[r].rules, start, hours, s.now, offset) else None)
  }

  function CreateGuards(s: State, office: Office, r: ResourceId, start: int, end: int, offset: int): Guards
  {
    GuardsFor(s, office, r, start, (end - start) as real / 3_600_000.0, offset)
  }

  function RescheduleGuards(s: State, office: Office, id: BookingId, start: int, end: int, offset: int): Guards
  {
    if id !in s.bookings then Guards(true, true, false, None)
    else GuardsFor(s, office, s.bookings[id].resource, start, RoundedHours(end - start) as real / 100.0, offset)
  }

  function Released(r: Resource): Resource
  {
    r.(occupied := false, current := None)
  }
}

module BookingsService {
  import opened Options
  import opened Store
  import opened BookingRules
  import opened Bookings

  method CreateBooking(
    db: Database, actor: Actor, office: Office, offset: int,
    id: BookingId, user: UserId, r: ResourceId, start: int, end: int)
    returns (reply: Reply)
    modifies db
    ensures var before := old(db.View());
      var q := CreateRequest(id, actor, user, r, start, end, CreateGuards(before, office, r, start, end, offset));
      Follows(Create(before, q), before, db.View(), reply)
  {
    if office.onFreePlan && (office.resourceCount > FREE_MAX_RESOURCES || office.staffCount > FREE_MAX_USERS) {
      return Failed(OverPlanLimit);
    }
    if start < db.now || end <= start {
      return Failed(InvalidSlot);
    }
    if r !in db.resources {
      return Failed(if office.foreign then ForeignResource else NotFound);
    }
    if !office.active {
      return Failed(NotFound);
    }
    var resource := db.resources[r];
    if resource.maintenance {
      return Failed(UnderMaintenance);
    }
    var hoursDifference := (end - start) as real / 3_600_000.0;
    var broken := RuleBroken(resource.rules, start, hoursDifference, db.now, offset);
    if broken.Some? {
      return Failed(broken.value);
    }
    var guards := Guards(true, true, office.foreign, None);
    reply := PlaceBooking(db, CreateRequest(id, actor, user, r, start, end, guards), hoursDifference);
  }

  /** What is left of createBooking once its guards have let the request through: the conflict query, the price, the
      solvency check and the writes. */
  method PlaceBooking(db: Database, q: CreateRequest, hoursDifference: real) returns (reply: Reply)
    requires q.guards.withinPlan && q.guards.orgActive && q.guards.broken == None
    requires db.now <= q.start < q.end && q.resource in db.resources && !db.resources[q.resource].maintenance
    requires hoursDifference == (q.end - q.start) as real / 3_600_000.0
    modifies db
    ensures Follows(Create(old(db.View()), q), old(db.View()), db.View(), reply)
  {
    var resource := db.resources[q.resource];
    if SlotTaken(db.bookings, q.resource, q.start, q.end, resource.buffer) {
      return Failed(AlreadyBooked);
    }
    var totalCost := hoursDifference * resource.rate;
    assert totalCost == ExactCost(q.end - q.start, resource.rate);
    if q.user !in db.credits {
      return Failed(NotFound);
    }
    var pendingCredits := PendingTotal(db.bookings, q.user);
    var status := if q.actor.isOrgAdmin || resource.autoConfirm then Confirmed else Pending;
    if db.credits[q.user] as real < totalCost + pendingCredits as real {
      return Failed(InsufficientCredits);
    }
    if !Integral(totalCost) {
      return Failed(NotIntegral);
    }
    if q.id in db.bookings {
      return Failed(DuplicateKey);
    }
    if status == Confirmed && db.credits[q.user] < totalCost.Floor {
      return Failed(InsufficientCredits);
    }
    db.bookings := db.bookings[q.id := Booking(q.user, q.resource, q.start, q.end, totalCost.Floor, status)];
    Charge(db, q.id, q.user, if status == Confirmed then totalCost.Floor else 0);
    return Accepted;
  }

  /** Charge a user for a booking; a negative amount is a refund. */
  method Charge(db: Database, id: BookingId, user: UserId, due: int)
    modifies db`credits, db`charges
    ensures db.credits == Adjust(old(db.credits), user, -due)
    ensures db.charges == old(db.charges)[id := Balance(old(db.charges), id) + due]
  {
    db.charges := db.charges[id := Balance(db.charges, id) + due];
    if due != 0 {
      db.credits := Adjust(db.credits, user, -due);
    }
  }

  method RescheduleBooking(db: Database, office: Office, offset: int, id: BookingId, start: int, end: int)
    returns (reply: Reply)
    modifies db
    ensures var before := old(db.View());
      var q := RescheduleRequest(id, start, end, RescheduleGuards(before, office, id, start, end, offset));
      Follows(Reschedule(before, q), before, db.View(), reply)
  {
    if id !in db.bookings {
      return Failed(NotFound);
    }
    var booking := db.bookings[id];
    if booking.status != Confirmed && booking.status != Pending {
      return Failed(NotReschedulable);
    }
    if start < db.now || end <= start {
      return Failed(InvalidSlot);
    }
    if booking.resource !in db.resources || !office.active {
      return Failed(NotFound);
    }
    var resource := db.resources[booking.resource];
    if resource.maintenance {
      return Failed(UnderMaintenance);
    }
    if RoundedHours(end - start) <= 0 {
      return Failed(InvalidSlot);
    }
    var hoursDifference := RoundedHours(end - start) as real / 100.0;
    var broken := RuleBroken(resource.rules, start, hoursDifference, db.now, offset);
    if broken.Some? {
      return Failed(broken.value);
    }
    if SlotTaken(db.bookings - {id}, booking.resource, start, end, resource.buffer) {
      return Failed(AlreadyBooked);
    }
    var totalCost := hoursDifference * resource.rate;
    assert totalCost == RoundedCost(end - start, resource.rate);
    if booking.user !in db.credits {
      return Failed(NotFound);
    }
    var alreadyPaid := if booking.status == Confirmed then booking.cost else 0;
    var howMuchToPay := totalCost - alreadyPaid as real;
    if howMuchToPay > 0.0 {
      var pendingCredits := PendingTotal(db.bookings - {id}, booking.user);
      if db.credits[booking.user] as real < howMuchToPay + pendingCredits as real {
        return Failed(InsufficientCredits);
      }
    }
    if !Integral(totalCost) {
      return Failed(NotIntegral);
    }
    db.bookings := db.bookings[id := booking.(start := start, end := end, cost := totalCost.Floor)];
    Charge(db, id, booking.user, if booking.status == Confirmed then totalCost.Floor - alreadyPaid else 0);
    return Accepted;
  }

  method UpdateBookingStatus(db: Database, actor: Actor, id: BookingId, to: Status) returns (reply: Reply)
    modifies db
    ensures Follows(SetStatus(old(db.View()), actor, id, to), old(db.View()), db.View(), reply)
  {
    if id !in db.bookings {
      return Failed(NotFound);
    }
    var booking := db.bookings[id];
    if !actor.isOrgAdmin && booking.user != actor.user {
      return Failed(Forbidden);
    }
    var due := 0;
    if booking.status == Pending && to == Confirmed {
      if !actor.isOrgAdmin {
        return Failed(Forbidden);
      }
      if Balance(db.credits, booking.user) < booking.cost || Balance(db.credits, booking.user) < 0 {
        return Failed(InsufficientCredits);
      }
      due := booking.cost;
    }
    if booking.status == Confirmed && to == Cancelled {
      var timeDifference := booking.start - db.now;
      if timeDifference < FULL_REFUND_MS && booking.cost % 2 != 0 && booking.cost > 0 {
        return Failed(NotIntegral);
      }
      var refund := if timeDifference < FULL_REFUND_MS then booking.cost / 2 else booking.cost;
      if refund > 0 {
        due := -refund;
      }
    }
    if booking.status == CheckedIn && to == Completed {
      if booking.resource !in db.resources {
        return Failed(NotFound);
      }
      db.resources := db.resources[booking.resource := Released(db.resources[booking.resource])];
    }
    Charge(db, id, booking.user, due);
    db.bookings := db.bookings[id := booking.(status := to)];
    return Accepted;
  }
}

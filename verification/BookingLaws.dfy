/** What an accepted booking, reschedule or status move leaves behind, when each is accepted, and who can make a booking
    a paid one: stated on the tables before and after. */
module BookingLaws {
  import opened Options
  import opened Store
  import opened BookingRules
  import opened Bookings
  import opened Invariants

  /** Nothing differs but one booking, its user's balance and its charge. */
  ghost predicate OnlyTouches(s: State, t: State, id: BookingId, user: UserId)
  {
    && t.now == s.now && t.pool == s.pool
    && t.bookings.Keys == s.bookings.Keys + {id}
    && (forall j :: j in s.bookings && j != id ==> t.bookings[j] == s.bookings[j])
    && t.credits.Keys == s.credits.Keys
    && (forall u :: u in s.credits && u != user ==> t.credits[u] == s.credits[u])
  }

  /** Every other blocking booking of the resource is at least the buffer away from the slot. */
  ghost predicate Free(s: State, id: BookingId, r: ResourceId, start: int, end: int, buffer: nat)
  {
    forall j :: j in s.bookings && j != id && s.bookings[j].resource == r
             && (s.bookings[j].status == Pending || s.bookings[j].status == Confirmed)
             ==> s.bookings[j].end + buffer <= start || end + buffer <= s.bookings[j].start
  }

  lemma FreeExact(s: State, id: BookingId, r: ResourceId, start: int, end: int, buffer: nat)
    ensures Free(s, id, r, start, end, buffer) <==> !SlotTaken(s.bookings - {id}, r, start, end, buffer)
  {
    if Free(s, id, r, start, end, buffer) {
      forall j | j in s.bookings - {id} ensures !Conflicts((s.bookings - {id})[j], r, start, end, buffer) {
        assert s.bookings[j] == (s.bookings - {id})[j];
      }
    } else {
      var j :| j in s.bookings && j != id && s.bookings[j].resource == r
            && (s.bookings[j].status == Pending || s.bookings[j].status == Confirmed)
            && !(s.bookings[j].end + buffer <= start || end + buffer <= s.bookings[j].start);
      assert Conflicts((s.bookings - {id})[j], r, start, end, buffer);
    }
  }

  // ---- the guards' answers ----

  /** What the guards read from the organization is what they answer with. */
  lemma OfficeExact(s: State, office: Office, r: ResourceId, start: int, end: int, offset: int)
    ensures var g := CreateGuards(s, office, r, start, end, offset);
      && (g.withinPlan <==> !(office.onFreePlan && (office.resourceCount > 2 || office.staffCount > 5)))
      && g.orgActive == office.active && g.foreign == office.foreign
      && (r !in s.resources || s.resources[r].rules == None ==> g.broken == None)
  {
  }

  /** Where only the length is limited, creating is refused as too long exactly past the limit, rescheduling exactly
      from half a hundredth of an hour past the last whole hundredth within it. */
  lemma LengthGuardsExact(s: State, office: Office, id: BookingId, start: int, end: int, offset: int, max: real)
    requires id in s.bookings && s.bookings[id].resource in s.resources && max != 0.0
    requires var rules := s.resources[s.bookings[id].resource].rules;
      rules.Some? && rules.value.weekendAllowed && rules.value.days == {} && rules.value.maxHours == max
    ensures CreateGuards(s, office, s.bookings[id].resource, start, end, offset).broken == Some(TooLong)
       <==> (end - start) as real > 3_600_000.0 * max
    ensures RescheduleGuards(s, office, id, start, end, offset).broken == Some(TooLong)
       <==> end - start >= 36_000 * (100.0 * max).Floor + 18_000
    ensures RescheduleGuards(s, office, id, start, end, offset).orgActive == office.active
  {
    var ms, hundredths := end - start, (100.0 * max).Floor;
    assert RoundedHours(ms) as real / 100.0 > max <==> RoundedHours(ms) > hundredths;
    assert RoundedHours(ms) > hundredths <==> ms >= 36_000 * hundredths + 18_000;
  }

  // ---- creating ----

  lemma PriceOfLength(ms: int, rate: real)
    ensures ExactCost(ms, rate) * 3_600_000.0 == ms as real * rate
  {
  }

  /** A created booking is what was asked for, at the exact price. It is CONFIRMED and paid at once exactly when an
      organization admin asks or the resource confirms automatically; otherwise it is PENDING and nothing is paid. */
  lemma CreatedExact(s: State, q: CreateRequest)
    requires Create(s, q).Done?
    ensures q.resource in s.resources && q.user in s.credits && q.id !in s.bookings
    ensures var t, r := Create(s, q).next, s.resources[q.resource];
      && OnlyTouches(s, t, q.id, q.user) && t.resources == s.resources
      && var b := t.bookings[q.id];
         && b.user == q.user && b.resource == q.resource && b.start == q.start && b.end == q.end
         && b.cost as real * 3_600_000.0 == (q.end - q.start) as real * r.rate
         && b.status == (if q.actor.isOrgAdmin || r.autoConfirm then Confirmed else Pending)
         && t.credits[q.user] == s.credits[q.user] - (if b.status == Confirmed then b.cost else 0)
  {
    PriceOfLength(q.end - q.start, s.resources[q.resource].rate);
  }

  /** A request is accepted exactly when every guard lets it through, the slot is free with the buffer, the price is a
      whole number, and the balance covers it besides everything the user has pending. */
  lemma CreateAcceptedExact(s: State, q: CreateRequest)
    requires Inv(s)
    ensures Create(s, q).Done? <==>
      && q.guards.withinPlan && q.guards.orgActive && q.guards.broken == None
      && s.now <= q.start < q.end && q.id !in s.bookings
      && q.resource in s.resources && q.user in s.credits
      && var r := s.resources[q.resource];
         && !r.maintenance && Free(s, q.id, q.resource, q.start, q.end, r.buffer)
         && Integral(ExactCost(q.end - q.start, r.rate))
         && ExactCost(q.end - q.start, r.rate) + PendingTotal(s.bookings, q.user) as real <= s.credits[q.user] as real
  {
    if q.resource in s.resources && q.id !in s.bookings {
      FreeExact(s, q.id, q.resource, q.start, q.end, s.resources[q.resource].buffer);
      assert s.bookings - {q.id} == s.bookings;
      PendingBounds(s, q.user);
    }
  }

  /** What a refusal says: the first of these, in this order, that applies. */
  lemma CreateRefusals(s: State, q: CreateRequest)
    ensures !q.guards.withinPlan ==> Create(s, q) == Refused(OverPlanLimit)
    ensures q.guards.withinPlan ==>
      if !(s.now <= q.start < q.end) then Create(s, q) == Refused(InvalidSlot)
      else if q.resource !in s.resources then
        Create(s, q) == Refused(if q.guards.foreign then ForeignResource else NotFound)
      else if !q.guards.orgActive then Create(s, q) == Refused(NotFound)
      else if s.resources[q.resource].maintenance then Create(s, q) == Refused(UnderMaintenance)
      else if q.guards.broken.Some? then Create(s, q) == Refused(q.guards.broken.value)
      else
        && (q.id !in s.bookings && !Free(s, q.id, q.resource, q.start, q.end, s.resources[q.resource].buffer) ==>
              Create(s, q) == Refused(AlreadyBooked))
        && (Create(s, q).Refused? ==>
              Create(s, q).why in {AlreadyBooked, NotFound, InsufficientCredits, NotIntegral, DuplicateKey})
  {
    if q.resource in s.resources && q.id !in s.bookings {
      FreeExact(s, q.id, q.resource, q.start, q.end, s.resources[q.resource].buffer);
      assert s.bookings - {q.id} == s.bookings;
    }
  }

  // ---- rescheduling ----

  lemma Rounding(ms: int)
    ensures -18_000 <= 36_000 * RoundedHours(ms) - ms <= 18_000
  {
  }

  lemma HoursApart(ms: int)
    ensures -1.0 / 200.0 <= RoundedHours(ms) as real / 100.0 - ms as real / 3_600_000.0 <= 1.0 / 200.0
  {
    Rounding(ms);
    var n := RoundedHours(ms);
    assert -18_000.0 <= 36_000.0 * n as real - ms as real <= 18_000.0;
    assert n as real / 100.0 - ms as real / 3_600_000.0 == (36_000.0 * n as real - ms as real) / 3_600_000.0;
  }

  /** Within half a hundredth of an hour at the rate. */
  lemma RoundedPrice(ms: int, rate: real)
    requires rate >= 0.0
    ensures RoundedCost(ms, rate) - rate / 200.0 <= ExactCost(ms, rate) <= RoundedCost(ms, rate) + rate / 200.0
  {
    HoursApart(ms);
    var rounded, exact := RoundedHours(ms) as real / 100.0, ms as real / 3_600_000.0;
    var x, y := RoundedCost(ms, rate), ExactCost(ms, rate);
    assert x == rounded * rate && y == exact * rate;
    var low, high := x - rate / 200.0, x + rate / 200.0;
    assert low <= y && y <= high by { Apart(rounded, exact, rate, x, y); }
  }

  lemma PriceOfHundredths(ms: int, rate: real)
    ensures RoundedCost(ms, rate) * 100.0 == RoundedHours(ms) as real * rate
  {
    HundredTimes(RoundedHours(ms) as real, rate);
  }

  lemma HundredTimes(n: real, rate: real)
    ensures n / 100.0 * rate * 100.0 == n * rate
  {
  }

  lemma Apart(x: real, y: real, rate: real, first: real, second: real)
    requires rate >= 0.0 && -1.0 / 200.0 <= x - y <= 1.0 / 200.0
    requires first == x * rate && second == y * rate
    ensures first - rate / 200.0 <= second <= first + rate / 200.0
  {
    NotFarther(x, y, rate, first, second);
    NotFarther(y, x, rate, second, first);
  }

  lemma NotFarther(x: real, y: real, rate: real, first: real, second: real)
    requires rate >= 0.0 && x - y <= 1.0 / 200.0
    requires first == x * rate && second == y * rate
    ensures first - second <= rate / 200.0
  {
    assert (1.0 / 200.0 - x + y) * rate >= 0.0;
  }

  /** A rescheduled booking keeps its user, resource and status, and has the times asked for; who had paid pays the
      difference of the prices or gets it back, who had not pays nothing yet. */
  lemma RescheduledExact(s: State, q: RescheduleRequest)
    requires Reschedule(s, q).Done?
    ensures q.id in s.bookings && s.bookings[q.id].user in s.credits
    ensures var t, old' := Reschedule(s, q).next, s.bookings[q.id];
      && OnlyTouches(s, t, q.id, old'.user) && t.resources == s.resources
      && var b := t.bookings[q.id];
         && b.user == old'.user && b.resource == old'.resource && b.status == old'.status
         && b.start == q.start && b.end == q.end
         && t.credits[b.user] == s.credits[b.user] - (if b.status == Confirmed then b.cost - old'.cost else 0)
  {
  }

  /** Its price is that of the new length in whole hundredths of an hour, so within a two-hundredth of the rate of the
      exact price. */
  lemma RescheduledPrice(s: State, q: RescheduleRequest)
    requires Inv(s) && Reschedule(s, q).Done?
    ensures q.id in s.bookings
    ensures var b, rate := Reschedule(s, q).next.bookings[q.id], s.resources[s.bookings[q.id].resource].rate;
      && b.cost as real * 100.0 == RoundedHours(q.end - q.start) as real * rate
      && -18_000 <= 36_000 * RoundedHours(q.end - q.start) - (q.end - q.start) <= 18_000
      && var exact := (q.end - q.start) as real / 3_600_000.0 * rate;
         b.cost as real - rate / 200.0 <= exact <= b.cost as real + rate / 200.0
  {
    var rate := s.resources[s.bookings[q.id].resource].rate;
    Rounding(q.end - q.start);
    RoundedPrice(q.end - q.start, rate);
    PriceOfHundredths(q.end - q.start, rate);
    CostIsPrice(s, q);
  }

  lemma CostIsPrice(s: State, q: RescheduleRequest)
    requires Reschedule(s, q).Done?
    ensures q.id in s.bookings && s.bookings[q.id].resource in s.resources
    ensures Reschedule(s, q).next.bookings[q.id].cost as real
         == RoundedCost(q.end - q.start, s.resources[s.bookings[q.id].resource].rate)
  {
  }

  /** What a reschedule to the new length would still cost the user. */
  function StillToPay(b: Booking, ms: int, rate: real): real
  {
    RoundedCost(ms, rate) - if b.status == Confirmed then b.cost as real else 0.0
  }

  /** A reschedule is accepted exactly for a pending or confirmed booking and a future slot that the guards let through,
      free with the buffer of all other bookings, at a whole price the user can pay besides everything else pending. */
  lemma RescheduleAcceptedExact(s: State, q: RescheduleRequest)
    requires Inv(s)
    ensures Reschedule(s, q).Done? <==>
      && q.id in s.bookings && (s.bookings[q.id].status == Pending || s.bookings[q.id].status == Confirmed)
      && q.guards.orgActive && q.guards.broken == None
      && s.now <= q.start < q.end && RoundedHours(q.end - q.start) > 0
      && var b, r := s.bookings[q.id], s.resources[s.bookings[q.id].resource];
         && !r.maintenance && Free(s, q.id, b.resource, q.start, q.end, r.buffer)
         && Integral(RoundedCost(q.end - q.start, r.rate))
         && var due := StillToPay(b, q.end - q.start, r.rate);
            due <= 0.0 || due + PendingTotal(s.bookings - {q.id}, b.user) as real <= s.credits[b.user] as real
  {
    if q.id in s.bookings {
      var b := s.bookings[q.id];
      FreeExact(s, q.id, b.resource, q.start, q.end, s.resources[b.resource].buffer);
    }
  }

  /** What a refusal says: the first of these, in this order, that applies. */
  lemma RescheduleRefusals(s: State, q: RescheduleRequest)
    requires Inv(s)
    ensures
      if q.id !in s.bookings then Reschedule(s, q) == Refused(NotFound)
      else
        var b, r := s.bookings[q.id], s.resources[s.bookings[q.id].resource];
        if b.status != Pending && b.status != Confirmed then Reschedule(s, q) == Refused(NotReschedulable)
        else if !(s.now <= q.start < q.end) then Reschedule(s, q) == Refused(InvalidSlot)
        else if !q.guards.orgActive then Reschedule(s, q) == Refused(NotFound)
        else if r.maintenance then Reschedule(s, q) == Refused(UnderMaintenance)
        else if RoundedHours(q.end - q.start) <= 0 then Reschedule(s, q) == Refused(InvalidSlot)
        else if q.guards.broken.Some? then Reschedule(s, q) == Refused(q.guards.broken.value)
        else if !Free(s, q.id, b.resource, q.start, q.end, r.buffer) then Reschedule(s, q) == Refused(AlreadyBooked)
        else Reschedule(s, q).Refused? ==> Reschedule(s, q).why in {InsufficientCredits, NotIntegral}
  {
    if q.id in s.bookings {
      var b := s.bookings[q.id];
      FreeExact(s, q.id, b.resource, q.start, q.end, s.resources[b.resource].buffer);
    }
  }

  // ---- moving ----

  /** Staff move their own bookings and confirm none; a paid booking cancelled in its last hour must have an even cost.
      Nothing else is ever refused. */
  lemma MoveAcceptedExact(s: State, actor: Actor, id: BookingId, to: Status)
    requires Inv(s)
    ensures SetStatus(s, actor, id, to).Done? <==>
      && id in s.bookings
      && var b := s.bookings[id];
         && (actor.isOrgAdmin || b.user == actor.user)
         && (b.status == Pending && to == Confirmed ==> actor.isOrgAdmin)
         && (b.status == Confirmed && to == Cancelled && b.start < s.now + HOUR ==> b.cost % 2 == 0)
  {
    if id in s.bookings {
      PendingBounds(s, s.bookings[id].user);
      assert PendingTotal(s.bookings, s.bookings[id].user) <= s.credits[s.bookings[id].user];
    }
  }

  /** What a refusal says: staff at somebody else's booking, or staff confirming their own. */
  lemma StaffIsRefused(s: State, actor: Actor, id: BookingId, to: Status)
    requires id in s.bookings && !actor.isOrgAdmin
    requires s.bookings[id].user != actor.user || (s.bookings[id].status == Pending && to == Confirmed)
    ensures SetStatus(s, actor, id, to) == Refused(Forbidden)
  {
  }

  /** A move changes the status asked for and nothing else about the booking. Confirming a pending booking takes its
      cost; cancelling a confirmed one gives back all of it up to an hour before it starts, half of it later.
      Completing a session frees its resource. */
  lemma MovedExact(s: State, actor: Actor, id: BookingId, to: Status)
    requires Inv(s) && SetStatus(s, actor, id, to).Done?
    ensures id in s.bookings
    ensures var t, b := SetStatus(s, actor, id, to).next, s.bookings[id];
      && OnlyTouches(s, t, id, b.user)
      && t.bookings[id] == Booking(b.user, b.resource, b.start, b.end, b.cost, to)
      && t.credits[b.user] == s.credits[b.user]
         + (if b.status == Pending && to == Confirmed then -b.cost
            else if b.status == Confirmed && to == Cancelled then
              (if b.start >= s.now + HOUR then b.cost else b.cost / 2)
            else 0)
      && t.resources.Keys == s.resources.Keys
      && (forall r :: r in s.resources && !(r == b.resource && b.status == CheckedIn && to == Completed) ==>
            t.resources[r] == s.resources[r])
      && (b.status == CheckedIn && to == Completed ==>
            t.resources[b.resource] == s.resources[b.resource].(occupied := false, current := None))
  {
  }
}

/** What the booking engine keeps true although no single place in the code states it. */
module Invariants {
  import opened Options
  import opened Totals
  import opened Store
  import opened Bookings
  import opened Scheduler

  ghost predicate WellFormed(s: State)
  {
    && Referential(s)
    && s.charges.Keys == s.bookings.Keys
    && s.pool >= 0
    && (forall r :: r in s.resources ==> s.resources[r].rate >= 0.0)
    && (forall id :: id in s.bookings ==> s.bookings[id].start < s.bookings[id].end && s.bookings[id].cost >= 0)
  }

  /** Every member can pay for everything they have waiting for confirmation. */
  ghost predicate Solvent(s: State)
  {
    forall u {:trigger PendingTotal(s.bookings, u)} :: u in s.credits ==> PendingTotal(s.bookings, u) <= s.credits[u]
  }

  predicate Separate(a: Booking, b: Booking, gap: nat)
  {
    a.end + gap <= b.start || b.end + gap <= a.start
  }

  /** Blocking bookings of resource r keep at least `gap` between them. */
  ghost predicate Apart(bookings: map<BookingId, Booking>, r: ResourceId, gap: nat)
  {
    forall i, j :: i in bookings && j in bookings && i != j
                && bookings[i].resource == r && bookings[j].resource == r
                && bookings[i].Blocking() && bookings[j].Blocking()
                ==> Separate(bookings[i], bookings[j], gap)
  }

  ghost predicate NoDoubleBooking(s: State)
  {
    forall r {:trigger Apart(s.bookings, r, 0)} :: r in s.resources ==> Apart(s.bookings, r, 0)
  }

  /** A resource is occupied exactly when it names a current booking, which is a checked-in booking of that resource. */
  predicate HonestAt(s: State, r: ResourceId)
    requires r in s.resources
  {
    && (s.resources[r].occupied <==> s.resources[r].current.Some?)
    && (s.resources[r].current.Some? ==>
          var id := s.resources[r].current.value;
          id in s.bookings && s.bookings[id].resource == r && s.bookings[id].status == CheckedIn)
  }

  ghost predicate OccupancyHonest(s: State)
  {
    forall r {:trigger HonestAt(s, r)} :: r in s.resources ==> HonestAt(s, r)
  }

  predicate Suspended(s: State, b: Booking)
  {
    b.Blocking() && b.resource in s.resources && s.resources[b.resource].maintenance
  }

  /** Under maintenance nothing is booked from now on. */
  ghost predicate MaintenanceQuiet(s: State)
  {
    forall id :: id in s.bookings && Suspended(s, s.bookings[id]) ==> s.bookings[id].end < s.now
  }

  /** What a booking's user has paid for it, net of refunds, is fixed by its status. */
  predicate Settled(b: Booking, charge: int)
  {
    match b.status
    case Pending => charge == 0
    case Rejected => charge == 0
    case Cancelled => charge == 0 || 2 * charge == b.cost
    case _ => charge == b.cost
  }

  ghost predicate ChargesSettled(s: State)
  {
    forall id :: id in s.bookings && id in s.charges ==> Settled(s.bookings[id], s.charges[id])
  }

  ghost predicate Inv(s: State)
  {
    && WellFormed(s)
    && Solvent(s)
    && NoDoubleBooking(s)
    && OccupancyHonest(s)
    && MaintenanceQuiet(s)
    && ChargesSettled(s)
  }

  /** All credits of the organization: in the pool, with members, and paid into bookings. */
  function Worth(s: State): int
  {
    s.pool + Total(s.credits) + Total(s.charges)
  }

  // ---- one booking row written ----

  /** What a caller of Write has to know for the invariants to survive. */
  ghost predicate WriteFits(s: State, id: BookingId, b: Booking, paid: int)
  {
    && b.user in s.credits && b.resource in s.resources && b.start < b.end && b.cost >= 0
    && (id in s.bookings ==> s.bookings[id].user == b.user && s.bookings[id].resource == b.resource)
    && PendingTotal(s.bookings[id := b], b.user) <= s.credits[b.user] - paid
    && Settled(b, Balance(s.charges, id) + paid)
    && KeepsClear(s.bookings, id, b, 0)
    && (Suspended(s, b) ==> b.end < s.now)
    && (s.resources[b.resource].current == Some(id) ==> b.status == CheckedIn)
  }

  /** If b blocks, the other blocking bookings of its resource are at least `gap` away. */
  ghost predicate KeepsClear(bookings: map<BookingId, Booking>, id: BookingId, b: Booking, gap: nat)
  {
    b.Blocking() ==>
      forall j :: j in bookings && j != id && bookings[j].resource == b.resource && bookings[j].Blocking()
        ==> Separate(b, bookings[j], gap)
  }

  lemma WriteKeepsInv(s: State, id: BookingId, b: Booking, paid: int)
    requires Inv(s) && WriteFits(s, id, b, paid)
    ensures Inv(Write(s, id, b, paid))
    ensures Worth(Write(s, id, b, paid)) == Worth(s)
  {
    WriteKeepsSolvent(s, id, b, paid);
    WriteKeepsOccupancy(s, id, b, paid);
    WriteKeepsApart(s, id, b, paid);
    WriteKeepsTheRest(s, id, b, paid);
    WriteKeepsWorth(s, id, b, paid);
  }

  lemma WriteKeepsWorth(s: State, id: BookingId, b: Booking, paid: int)
    requires b.user in s.credits
    ensures Worth(Write(s, id, b, paid)) == Worth(s)
  {
    AdjustTotal(s.credits, b.user, -paid);
    TotalPut(s.charges, id, Balance(s.charges, id) + paid);
  }

  lemma WriteKeepsTheRest(s: State, id: BookingId, b: Booking, paid: int)
    requires WellFormed(s) && MaintenanceQuiet(s) && ChargesSettled(s) && WriteFits(s, id, b, paid)
    ensures var t := Write(s, id, b, paid); WellFormed(t) && MaintenanceQuiet(t) && ChargesSettled(t)
  {
  }

  lemma WriteKeepsApart(s: State, id: BookingId, b: Booking, paid: int)
    requires NoDoubleBooking(s) && WriteFits(s, id, b, paid)
    ensures NoDoubleBooking(Write(s, id, b, paid))
  {
    forall r | r in s.resources ensures Apart(s.bookings[id := b], r, 0) {
      assert Apart(s.bookings, r, 0);
      ApartAfterPut(s.bookings, id, b, r, 0);
    }
  }

  lemma WriteKeepsSolvent(s: State, id: BookingId, b: Booking, paid: int)
    requires Solvent(s) && WriteFits(s, id, b, paid)
    ensures Solvent(Write(s, id, b, paid))
  {
    forall u | u in s.credits && u != b.user ensures PendingTotal(s.bookings[id := b], u) <= s.credits[u] {
      PendingTotalPut(s.bookings, id, b, u);
    }
  }

  lemma WriteKeepsOccupancy(s: State, id: BookingId, b: Booking, paid: int)
    requires OccupancyHonest(s) && WriteFits(s, id, b, paid)
    ensures OccupancyHonest(Write(s, id, b, paid))
  {
    forall r | r in s.resources ensures HonestAt(Write(s, id, b, paid), r) {
      assert HonestAt(s, r);
    }
  }

  lemma ApartAfterPut(bookings: map<BookingId, Booking>, id: BookingId, b: Booking, r: ResourceId, gap: nat)
    requires Apart(bookings, r, gap)
    requires b.resource == r ==> KeepsClear(bookings, id, b, gap)
    ensures Apart(bookings[id := b], r, gap)
  {
  }

  lemma PendingBounds(s: State, u: UserId)
    requires WellFormed(s)
    ensures PendingTotal(s.bookings, u) >= 0
    ensures forall id :: id in s.bookings ==> PendingShare(s.bookings[id], u) <= PendingTotal(s.bookings, u)
  {
    var costs := PendingCosts(s.bookings, u);
    TotalNonNegative(costs);
    forall id | id in s.bookings ensures PendingShare(s.bookings[id], u) <= PendingTotal(s.bookings, u) {
      assert id in costs;
    }
  }

  lemma CostNonNegative(hours: real, rate: real)
    requires hours >= 0.0 && rate >= 0.0
    ensures hours * rate >= 0.0 && (hours * rate).Floor >= 0
  {
  }
}

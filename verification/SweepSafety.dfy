/** The cron sweeps, the maintenance toggle and the staff transfers keep the invariants and the organization's worth. */
module SweepSafety {
  import opened Totals
  import opened Store
  import opened Scheduler
  import opened Maintenance
  import opened StaffCredits
  import opened Invariants

  /** Rows may leave the blocking statuses, but none enters them, moves in time or changes hands. */
  ghost predicate OnlyUnblocks(before: map<BookingId, Booking>, after: map<BookingId, Booking>)
  {
    && after.Keys == before.Keys
    && forall id {:trigger after[id]} {:trigger before[id]} :: id in before ==>
         && after[id] == before[id].(status := after[id].status)
         && (after[id].status == before[id].status || !after[id].Blocking())
  }

  lemma UnblockingKeepsApart(before: map<BookingId, Booking>, after: map<BookingId, Booking>, r: ResourceId, gap: nat)
    requires OnlyUnblocks(before, after) && Apart(before, r, gap)
    ensures Apart(after, r, gap)
  {
  }

  lemma UnblockingLowersPending(before: map<BookingId, Booking>, after: map<BookingId, Booking>, u: UserId)
    requires OnlyUnblocks(before, after)
    requires forall id :: id in before ==> before[id].cost >= 0
    ensures PendingTotal(after, u) <= PendingTotal(before, u)
  {
    TotalMonotone(PendingCosts(after, u), PendingCosts(before, u));
  }

  /** Everything but occupancy and charges follows from OnlyUnblocks when no balance falls. */
  lemma UnblockingKeepsMost(s: State, t: State)
    requires WellFormed(s) && Solvent(s) && NoDoubleBooking(s)
    requires OnlyUnblocks(s.bookings, t.bookings)
    requires t.credits.Keys == s.credits.Keys && forall u :: u in s.credits ==> s.credits[u] <= t.credits[u]
    requires t.resources.Keys == s.resources.Keys
    ensures Solvent(t) && NoDoubleBooking(t)
  {
    forall u | u in t.credits ensures PendingTotal(t.bookings, u) <= t.credits[u] {
      assert PendingTotal(s.bookings, u) <= s.credits[u];
      UnblockingLowersPending(s.bookings, t.bookings, u);
    }
    forall r | r in t.resources ensures Apart(t.bookings, r, 0) {
      assert Apart(s.bookings, r, 0);
      UnblockingKeepsApart(s.bookings, t.bookings, r, 0);
    }
  }

  // ---- cron sweeps ----

  lemma CancelSweepKeepsInv(s: State)
    requires Inv(s)
    ensures Inv(CancelSweep(s)) && Worth(CancelSweep(s)) == Worth(s)
    ensures OnlyUnblocks(s.bookings, CancelSweep(s).bookings)
  {
    var t := CancelSweep(s);
    UnblockingKeepsMost(s, t);
    forall r | r in t.resources ensures HonestAt(t, r) {
      assert HonestAt(s, r);
    }
  }

  lemma CheckInSweepKeepsInv(s: State, t: State)
    requires Inv(s) && CheckInSweep(s, t)
    ensures Inv(t) && Worth(t) == Worth(s) && OnlyUnblocks(s.bookings, t.bookings)
  {
    CheckingInUnblocks(s, t);
    UnblockingKeepsMost(s, t);
    CheckInSweepKeepsOccupancy(s, t);
    CheckInSweepKeepsForm(s, t);
    CheckInSweepKeepsQuiet(s, t);
    CheckInSweepKeepsCharges(s, t);
  }

  lemma CheckingInUnblocks(s: State, t: State)
    requires CheckInSweep(s, t)
    ensures OnlyUnblocks(s.bookings, t.bookings)
  {
  }

  lemma CheckInSweepKeepsForm(s: State, t: State)
    requires WellFormed(s) && OccupancyHonest(s) && CheckInSweep(s, t)
    ensures WellFormed(t)
  {
    CheckInSweepKeepsOccupancy(s, t);
  }

  lemma CheckInSweepKeepsQuiet(s: State, t: State)
    requires MaintenanceQuiet(s) && OccupancyHonest(s) && CheckInSweep(s, t)
    ensures MaintenanceQuiet(t)
  {
    CheckInSweepKeepsOccupancy(s, t);
    forall id | id in t.bookings && Suspended(t, t.bookings[id]) ensures t.bookings[id].end < t.now {
      assert Suspended(s, s.bookings[id]);
    }
  }

  lemma CheckInSweepKeepsCharges(s: State, t: State)
    requires ChargesSettled(s) && CheckInSweep(s, t)
    ensures ChargesSettled(t)
  {
    forall id | id in t.bookings && id in t.charges ensures Settled(t.bookings[id], t.charges[id]) {
      assert Settled(s.bookings[id], s.charges[id]);
    }
  }

  lemma CheckInSweepKeepsOccupancy(s: State, t: State)
    requires OccupancyHonest(s) && CheckInSweep(s, t)
    ensures OccupancyHonest(t)
    ensures forall r :: r in t.resources ==>
      t.resources[r].rate == s.resources[r].rate && t.resources[r].maintenance == s.resources[r].maintenance
  {
    forall r | r in t.resources ensures HonestAt(t, r) && t.resources[r].rate == s.resources[r].rate
                                     && t.resources[r].maintenance == s.resources[r].maintenance {
      assert HonestAt(s, r);
      if Touches(s.bookings, ArrivedIds(s), r) {
        assert OccupiedByOne(s.bookings, ArrivedIds(s), r, s.resources[r], t.resources[r]);
      }
    }
  }

  lemma CompleteSweepKeepsInv(s: State)
    requires Inv(s)
    ensures Inv(CompleteSweep(s)) && Worth(CompleteSweep(s)) == Worth(s)
    ensures OnlyUnblocks(s.bookings, CompleteSweep(s).bookings)
  {
    CompletingUnblocks(s);
    UnblockingKeepsMost(s, CompleteSweep(s));
    CompleteSweepKeepsForm(s);
    CompleteSweepKeepsQuiet(s);
    CompleteSweepKeepsCharges(s);
    CompleteSweepKeepsOccupancy(s);
  }

  lemma CompletingUnblocks(s: State)
    ensures OnlyUnblocks(s.bookings, CompleteSweep(s).bookings)
  {
  }

  lemma CompleteSweepKeepsForm(s: State)
    requires WellFormed(s)
    ensures WellFormed(CompleteSweep(s))
  {
  }

  lemma CompleteSweepKeepsQuiet(s: State)
    requires MaintenanceQuiet(s)
    ensures MaintenanceQuiet(CompleteSweep(s))
  {
    var t := CompleteSweep(s);
    forall id | id in t.bookings && Suspended(t, t.bookings[id]) ensures t.bookings[id].end < t.now {
      assert Suspended(s, s.bookings[id]);
    }
  }

  lemma CompleteSweepKeepsCharges(s: State)
    requires ChargesSettled(s)
    ensures ChargesSettled(CompleteSweep(s))
  {
    var t := CompleteSweep(s);
    forall id | id in t.bookings && id in t.charges ensures Settled(t.bookings[id], t.charges[id]) {
      assert Settled(s.bookings[id], s.charges[id]);
    }
  }

  lemma CompleteSweepKeepsOccupancy(s: State)
    requires OccupancyHonest(s)
    ensures OccupancyHonest(CompleteSweep(s))
  {
    var t := CompleteSweep(s);
    forall r | r in t.resources ensures HonestAt(t, r) {
      assert HonestAt(s, r);
    }
  }

  // ---- maintenance ----

  lemma RefundsNonNegative(s: State, ids: set<BookingId>, u: UserId)
    ensures OwedTo(s.bookings, ids, u) >= 0
  {
    TotalNonNegative(RefundsOwed(s.bookings, ids, u));
  }

  lemma CancelOneKeepsWorth(s: State, id: BookingId)
    requires id in s.bookings && s.bookings[id].user in s.credits && id in s.charges
    ensures Worth(CancelOne(s, id)) == Worth(s)
  {
    var b := s.bookings[id];
    AdjustTotal(s.credits, b.user, Refund(b));
    TotalPut(s.charges, id, s.charges[id] - Refund(b));
  }

  lemma {:induction false} CancelAllKeepsWorth(s: State, ids: set<BookingId>)
    requires Referential(s) && s.charges.Keys == s.bookings.Keys && ids <= s.bookings.Keys
    ensures Worth(CancelAll(s, ids)) == Worth(s)
    decreases |ids|
  {
    if ids == {} {
      CancelNone(s);
    } else {
      var id :| id in ids;
      var rest := ids - {id};
      CancelAllKeepsWorth(s, rest);
      assert rest + {id} == ids;
      CancelOneMoreKeepsWorth(s, rest, id);
    }
  }

  lemma CancelOneMoreKeepsWorth(s: State, done: set<BookingId>, id: BookingId)
    requires id in s.bookings && s.bookings[id].user in s.credits && id !in done && s.charges.Keys == s.bookings.Keys
    ensures Worth(CancelAll(s, done + {id})) == Worth(CancelAll(s, done))
  {
    CancelOneMore(s, done, id);
    CancelOneKeepsWorth(CancelAll(s, done), id);
  }

  lemma CancelAllKeepsInv(s: State, ids: set<BookingId>)
    requires Inv(s) && ids <= s.bookings.Keys
    requires forall id :: id in ids ==> s.bookings[id].Blocking()
    ensures Inv(CancelAll(s, ids)) && OnlyUnblocks(s.bookings, CancelAll(s, ids).bookings)
  {
    CancelAllUnblocks(s, ids);
    CancelAllKeepsForm(s, ids);
    CancelAllKeepsQuiet(s, ids);
    UnblockingKeepsMost(s, CancelAll(s, ids));
    CancelAllKeepsOccupancy(s, ids);
    CancelAllKeepsCharges(s, ids);
  }

  lemma CancelAllUnblocks(s: State, ids: set<BookingId>)
    requires s.charges.Keys == s.bookings.Keys
    ensures var t := CancelAll(s, ids);
      && OnlyUnblocks(s.bookings, t.bookings)
      && t.credits.Keys == s.credits.Keys && t.charges.Keys == t.bookings.Keys
      && (forall u :: u in s.credits ==> s.credits[u] <= t.credits[u])
  {
    var t := CancelAll(s, ids);
    forall u | u in s.credits ensures s.credits[u] <= t.credits[u] {
      RefundsNonNegative(s, ids, u);
    }
  }

  lemma CancelAllKeepsForm(s: State, ids: set<BookingId>)
    requires WellFormed(s)
    ensures WellFormed(CancelAll(s, ids))
  {
  }

  lemma CancelAllKeepsQuiet(s: State, ids: set<BookingId>)
    requires MaintenanceQuiet(s)
    ensures MaintenanceQuiet(CancelAll(s, ids))
  {
    var t := CancelAll(s, ids);
    forall id | id in t.bookings && Suspended(t, t.bookings[id]) ensures t.bookings[id].end < t.now {
      assert Suspended(s, s.bookings[id]);
    }
  }

  lemma CancelAllKeepsOccupancy(s: State, ids: set<BookingId>)
    requires OccupancyHonest(s) && ids <= s.bookings.Keys
    requires forall id :: id in ids ==> s.bookings[id].Blocking()
    ensures OccupancyHonest(CancelAll(s, ids))
  {
    forall r | r in s.resources ensures HonestAt(CancelAll(s, ids), r) {
      assert HonestAt(s, r);
    }
  }

  lemma CancelAllKeepsCharges(s: State, ids: set<BookingId>)
    requires WellFormed(s) && ChargesSettled(s) && ids <= s.bookings.Keys
    requires forall id :: id in ids ==> s.bookings[id].Blocking()
    ensures ChargesSettled(CancelAll(s, ids))
  {
    var t := CancelAll(s, ids);
    forall id | id in t.bookings ensures Settled(t.bookings[id], t.charges[id]) {
      assert Settled(s.bookings[id], s.charges[id]);
    }
  }

  lemma ToggleKeepsInv(s: State, r: ResourceId, orgActive: bool)
    requires Inv(s) && Toggle(s, r, orgActive).Done?
    ensures Inv(Toggle(s, r, orgActive).next) && Worth(Toggle(s, r, orgActive).next) == Worth(s)
    ensures OnlyUnblocks(s.bookings, Toggle(s, r, orgActive).next.bookings)
  {
    if s.resources[r].maintenance {
      FlagKeepsInv(s, r, false);
    } else {
      var cleared := CancelAll(s, Doomed(s, r));
      CancelAllKeepsInv(s, Doomed(s, r));
      CancelAllKeepsWorth(s, Doomed(s, r));
      NothingDoomedTwice(s, r);
      FlagKeepsInv(cleared, r, true);
      assert Toggle(s, r, orgActive).next == Flagged(cleared, r, true);
    }
  }

  lemma NothingDoomedTwice(s: State, r: ResourceId)
    ensures Doomed(CancelAll(s, Doomed(s, r)), r) == {}
  {
  }

  function Flagged(s: State, r: ResourceId, maintenance: bool): State
    requires r in s.resources
  {
    s.(resources := s.resources[r := s.resources[r].(maintenance := maintenance)])
  }

  lemma FlagKeepsInv(s: State, r: ResourceId, maintenance: bool)
    requires Inv(s) && r in s.resources
    requires maintenance ==> Doomed(s, r) == {}
    ensures Inv(Flagged(s, r, maintenance)) && Worth(Flagged(s, r, maintenance)) == Worth(s)
  {
    var t := Flagged(s, r, maintenance);
    UnblockingKeepsMost(s, t);
    forall x | x in t.resources ensures HonestAt(t, x) {
      assert HonestAt(s, x);
    }
    forall id | id in t.bookings && Suspended(t, t.bookings[id]) ensures t.bookings[id].end < t.now {
      if maintenance {
        assert id !in Doomed(s, r);
      }
    }
  }

  // ---- staff transfers ----

  lemma AllocateKeepsInv(s: State, g: Grant)
    requires Inv(s) && Allocate(s, g).Done?
    ensures Inv(Allocate(s, g).next) && Worth(Allocate(s, g).next) == Worth(s)
  {
    AdjustTotal(s.credits, g.user, g.credits);
    TransferKeepsInv(s, Allocate(s, g).next);
  }

  lemma RevokeKeepsInv(s: State, g: Grant)
    requires Inv(s) && Revoke(s, g).Done?
    ensures Inv(Revoke(s, g).next) && Worth(Revoke(s, g).next) == Worth(s)
  {
    AdjustTotal(s.credits, g.user, 0 - g.credits);
    TransferKeepsInv(s, Revoke(s, g).next);
  }

  lemma AllocateManyKeepsInv(s: State, grants: seq<Grant>)
    requires Inv(s) && AllocateMany(s, grants).Done?
    ensures Inv(AllocateMany(s, grants).next) && Worth(AllocateMany(s, grants).next) == Worth(s)
  {
    SpreadTotal(s.credits, grants);
    TransferKeepsInv(s, AllocateMany(s, grants).next);
  }

  /** Only the pool and balances change, and no balance falls below what is pending. */
  lemma TransferKeepsInv(s: State, t: State)
    requires Inv(s)
    requires t == s.(pool := t.pool, credits := t.credits) && t.pool >= 0 && t.credits.Keys == s.credits.Keys
    requires forall u :: u in s.credits ==> t.credits[u] >= s.credits[u] || t.credits[u] >= PendingTotal(s.bookings, u)
    ensures Inv(t)
  {
    forall r | r in t.resources ensures HonestAt(t, r) {
      assert HonestAt(s, r);
    }
  }
}

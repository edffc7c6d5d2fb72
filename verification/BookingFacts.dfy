/** Consequences for callers, and exactly where the engine falls short of what it is meant to do. */
module BookingFacts {
  import opened Options
  import opened Totals
  import opened Store
  import opened Bookings
  import opened Maintenance
  import opened Invariants
  import opened BookingSafety

  /** An organization admin who confirms a PENDING booking is never refused for lack of credits. */
  lemma ConfirmIsNeverRefused(s: State, actor: Actor, id: BookingId)
    requires Inv(s) && id in s.bookings && s.bookings[id].status == Pending && actor.isOrgAdmin
    ensures SetStatus(s, actor, id, Confirmed).Done?
  {
    var b := s.bookings[id];
    PendingBounds(s, b.user);
    assert PendingTotal(s.bookings, b.user) <= s.credits[b.user];
  }

  /** A confirmed booking can be cancelled exactly when it is early enough or its cost is even;
      its user then gets back everything or half. */
  lemma CancelExact(s: State, actor: Actor, id: BookingId)
    requires Inv(s) && id in s.bookings && s.bookings[id].status == Confirmed
    requires actor.isOrgAdmin || s.bookings[id].user == actor.user
    ensures var b := s.bookings[id];
            var o := SetStatus(s, actor, id, Cancelled);
            var early := b.start - s.now >= FULL_REFUND_MS;
            && (o.Done? <==> early || b.cost % 2 == 0)
            && (o.Done? ==> o.next.credits[b.user] == s.credits[b.user] + (if early then b.cost else b.cost / 2))
  {
  }

  /** The toggle raises each balance by exactly the cost of that user's cancelled CONFIRMED bookings. */
  lemma MaintenanceRefundsExactly(s: State, r: ResourceId, u: UserId)
    requires Inv(s) && r in s.resources && !s.resources[r].occupied && !s.resources[r].maintenance && u in s.credits
    ensures Toggle(s, r, true).Done?
    ensures Toggle(s, r, true).next.credits[u] == s.credits[u]
      + Total(map id | id in s.bookings && s.bookings[id].resource == r && s.bookings[id].end >= s.now
                       && s.bookings[id].status == Confirmed && s.bookings[id].user == u :: s.bookings[id].cost)
  {
    var doomed := Doomed(s, r);
    var paid := map id | id in s.bookings && s.bookings[id].resource == r && s.bookings[id].end >= s.now
                         && s.bookings[id].status == Confirmed && s.bookings[id].user == u :: s.bookings[id].cost;
    var owed := RefundsOwed(s.bookings, doomed, u);
    assert paid.Keys <= owed.Keys;
    forall id | id in owed ensures owed[id] == if id in paid then paid[id] else 0 {
    }
    DropZeros(owed, paid);
  }

  lemma {:induction false} DropZeros(m: map<nat, int>, n: map<nat, int>)
    requires n.Keys <= m.Keys
    requires forall k :: k in m ==> m[k] == if k in n then n[k] else 0
    ensures Total(m) == Total(n)
    decreases |m.Keys|
  {
    if m.Keys == {} {
      assert n.Keys == {};
    } else {
      var k := Least(m.Keys);
      TotalDrop(m, k);
      assert (m - {k}).Keys < m.Keys by { assert k in m.Keys; }
      DropZeros(m - {k}, n - {k});
      if k in n {
        TotalDrop(n, k);
      } else {
        assert n - {k} == n;
      }
    }
  }

  /** Rescheduling to the same length keeps the price exactly when the length is a whole number of
      hundredths of an hour. */
  lemma PricesAgreeExactly(ms: int, rate: real)
    requires ms > 0 && rate > 0.0
    ensures RoundedCost(ms, rate) == ExactCost(ms, rate) <==> ms % 36_000 == 0
  {
    var rounded, exact := RoundedHours(ms) as real / 100.0, ms as real / 3_600_000.0;
    if rounded != exact {
      CancelRate(rounded, exact, rate);
    }
    assert rounded == exact <==> (RoundedHours(ms) * 36_000) as real == ms as real;
  }

  lemma CancelRate(x: real, y: real, rate: real)
    requires x != y && rate > 0.0
    ensures x * rate != y * rate
  {
    assert (x - y) * rate != 0.0;
  }

  /** The maximum length that a rule sets is checked on exact hours when booking, on rounded hours when rescheduling.
      The two agree except between the two limits: the exact one, and half a hundredth of an hour past the last
      whole hundredth within it. */
  lemma LengthLimitsAgreeExactly(ms: int, max: real)
    ensures var exact, limit := 3_600_000.0 * max, 36_000 * (100.0 * max).Floor + 18_000;
      (ms as real / 3_600_000.0 > max <==> RoundedHours(ms) as real / 100.0 > max) <==>
        !(exact < ms as real && ms < limit) && !(limit <= ms && ms as real <= exact)
  {
    var hundredths := (100.0 * max).Floor;
    assert RoundedHours(ms) as real / 100.0 > max <==> RoundedHours(ms) > hundredths;
    assert RoundedHours(ms) > hundredths <==> ms >= 36_000 * hundredths + 18_000;
  }

  // ---- manual status moves ----

  ghost predicate MoveKeepsInvEverywhere(from: Status, to: Status)
  {
    forall s: State, actor: Actor, id: BookingId ::
      Inv(s) && id in s.bookings && s.bookings[id].status == from && SetStatus(s, actor, id, to).Done?
      ==> Inv(SetStatus(s, actor, id, to).next)
  }

  /** A state with one booking of the given status that satisfies every invariant. */
  function Sample(status: Status): State
  {
    var b := Booking(0, 0, HOUR, 2 * HOUR, 10, status);
    var charge := match status
      case Pending => 0 case Rejected => 0 case Cancelled => 5 case _ => 10;
    State(0, 0, map[0 := if status == Pending then 10 else 0],
          map[0 := Resource(10.0, 0, false, status == Completed, status == CheckedIn,
                             if status == CheckedIn then Some(0) else None, None)],
          map[0 := b], map[0 := charge])
  }

  lemma SampleIsSolvent(status: Status)
    ensures Solvent(Sample(status))
  {
    var s := Sample(status);
    forall u | u in s.credits ensures PendingTotal(s.bookings, u) <= s.credits[u] {
      assert PendingCosts(map[], u) == map[];
      PendingTotalPut(map[], 0, s.bookings[0], u);
      assert s.bookings == map[][0 := s.bookings[0]];
    }
  }

  lemma SampleIsHonest(status: Status)
    ensures OccupancyHonest(Sample(status)) && NoDoubleBooking(Sample(status))
  {
    var s := Sample(status);
    forall r | r in s.resources ensures HonestAt(s, r) && Apart(s.bookings, r, 0) {
    }
  }

  lemma SampleInv(status: Status)
    ensures Inv(Sample(status))
  {
    SampleIsSolvent(status);
    SampleIsHonest(status);
  }

  /** An unsafe move just rewrites the status. */
  function SampleMoved(from: Status, to: Status): State
  {
    var s := Sample(from);
    s.(bookings := map[0 := s.bookings[0].(status := to)])
  }

  lemma SampleMoves(from: Status, to: Status)
    requires !SafeMove(from, to)
    ensures SetStatus(Sample(from), Actor(0, true), 0, to) == Done(SampleMoved(from, to))
  {
    var s := Sample(from);
    var t := Write(s, 0, s.bookings[0].(status := to), 0);
    assert t.bookings == SampleMoved(from, to).bookings;
    assert t.credits == s.credits && t.charges == s.charges;
  }

  lemma SampleMoveBreaks(from: Status, to: Status)
    requires !SafeMove(from, to)
    ensures !Inv(SampleMoved(from, to))
  {
    var t := SampleMoved(from, to);
    var b := t.bookings[0];
    if from == CheckedIn {
      assert !HonestAt(t, 0);
    } else if from == Rejected && to == Pending {
      RejectedToPendingBreaks();
    } else if from == Completed && to == Confirmed {
      assert Suspended(t, b) && b.end >= t.now;
    } else {
      assert 0 in t.bookings && 0 in t.charges && !Settled(b, t.charges[0]);
    }
  }

  lemma RejectedToPendingBreaks()
    ensures !Solvent(SampleMoved(Rejected, Pending))
  {
    var t := SampleMoved(Rejected, Pending);
    PendingTotalPut(map[], 0, t.bookings[0], 0);
    assert PendingCosts(map[], 0) == map[];
    assert t.bookings == map[][0 := t.bookings[0]];
    assert PendingTotal(t.bookings, 0) == 10;
  }

  /** updateBookingStatus keeps the invariants exactly for the safe moves: every other pair of statuses
      breaks one of them from some state that satisfied them all. */
  lemma SafeMovesExact(from: Status, to: Status)
    ensures SafeMove(from, to) <==> MoveKeepsInvEverywhere(from, to)
  {
    if SafeMove(from, to) {
      forall s: State, actor: Actor, id: BookingId
        | Inv(s) && id in s.bookings && s.bookings[id].status == from && SetStatus(s, actor, id, to).Done?
        ensures Inv(SetStatus(s, actor, id, to).next)
      {
        SetStatusKeepsInv(s, actor, id, to);
      }
    } else {
      SampleInv(from);
      SampleMoves(from, to);
      SampleMoveBreaks(from, to);
      assert Sample(from).bookings[0].status == from;
    }
  }
}

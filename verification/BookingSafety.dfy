/** createBooking, rescheduleBooking and updateBookingStatus keep the invariants and move credits without making any. */
module BookingSafety {
  import opened Options
  import opened Store
  import opened Bookings
  import opened Scheduler
  import opened Invariants

  /** A slot the overlap query finds free is clear of every blocking booking by the buffer, so by any smaller gap. */
  lemma FreeSlotIsClear(bookings: map<BookingId, Booking>, id: BookingId, b: Booking, buffer: nat, gap: nat)
    requires !SlotTaken(bookings - {id}, b.resource, b.start, b.end, buffer) && gap <= buffer
    ensures KeepsClear(bookings, id, b, gap)
  {
    forall j | j in bookings && j != id && bookings[j].resource == b.resource && bookings[j].Blocking()
      ensures Separate(b, bookings[j], gap)
    {
      assert j in bookings - {id} && !Conflicts((bookings - {id})[j], b.resource, b.start, b.end, buffer);
    }
  }

  lemma CreateKeepsInv(s: State, q: CreateRequest)
    requires Inv(s) && Create(s, q).Done?
    ensures Inv(Create(s, q).next) && Worth(Create(s, q).next) == Worth(s)
  {
    var t := Create(s, q).next;
    var b, paid := t.bookings[q.id], t.charges[q.id];
    CreateFits(s, q);
    WriteKeepsInv(s, q.id, b, paid);
  }

  lemma CreateFits(s: State, q: CreateRequest)
    requires Inv(s) && Create(s, q).Done?
    ensures var t := Create(s, q).next;
            && t == Write(s, q.id, t.bookings[q.id], t.charges[q.id])
            && WriteFits(s, q.id, t.bookings[q.id], t.charges[q.id])
  {
    var t := Create(s, q).next;
    var b := t.bookings[q.id];
    var r := s.resources[q.resource];
    CostNonNegative((q.end - q.start) as real / 3_600_000.0, r.rate);
    assert s.bookings - {q.id} == s.bookings;
    FreeSlotIsClear(s.bookings, q.id, b, r.buffer, 0);
    PendingTotalPut(s.bookings, q.id, b, q.user);
    PendingBounds(s, q.user);
    assert HonestAt(s, q.resource) && q.id !in s.charges;
    assert Settled(b, t.charges[q.id]);
    assert b.cost >= 0;
    assert PendingTotal(s.bookings[q.id := b], b.user) <= s.credits[b.user] - t.charges[q.id];
  }

  lemma RescheduleKeepsInv(s: State, q: RescheduleRequest)
    requires Inv(s) && Reschedule(s, q).Done?
    ensures Inv(Reschedule(s, q).next) && Worth(Reschedule(s, q).next) == Worth(s)
  {
    var b, paid := RescheduleFits(s, q);
    WriteKeepsInv(s, q.id, b, paid);
  }

  lemma RescheduleFits(s: State, q: RescheduleRequest) returns (b': Booking, paid: int)
    requires Inv(s) && Reschedule(s, q).Done?
    ensures Reschedule(s, q).next == Write(s, q.id, b', paid) && WriteFits(s, q.id, b', paid)
  {
    var t := Reschedule(s, q).next;
    var b := s.bookings[q.id];
    b' := t.bookings[q.id];
    paid := t.charges[q.id] - s.charges[q.id];
    var r := s.resources[b.resource];
    CostNonNegative(RoundedHours(q.end - q.start) as real / 100.0, r.rate);
    FreeSlotIsClear(s.bookings, q.id, b', r.buffer, 0);
    PendingAfterReschedule(s, q.id, b');
    assert HonestAt(s, b.resource) && q.id in s.charges && Settled(b, s.charges[q.id]);
    assert Settled(b', Balance(s.charges, q.id) + paid);
    assert b'.cost >= 0;
    assert PendingTotal(s.bookings[q.id := b'], b.user) <= s.credits[b.user] - paid;
  }

  /** What the user has pending once the row is replaced, in terms of what is pending besides it. */
  lemma PendingAfterReschedule(s: State, id: BookingId, b': Booking)
    requires WellFormed(s) && Solvent(s) && id in s.bookings && b'.user == s.bookings[id].user
    ensures var u := b'.user;
      && PendingTotal(s.bookings[id := b'], u) == PendingTotal(s.bookings - {id}, u) + PendingShare(b', u)
      && PendingTotal(s.bookings, u) == PendingTotal(s.bookings - {id}, u) + PendingShare(s.bookings[id], u)
      && PendingShare(s.bookings[id], u) <= PendingTotal(s.bookings, u) <= s.credits[u]
  {
    PendingTotalPut(s.bookings, id, b', b'.user);
    PendingTotalDrop(s.bookings, id, b'.user);
    PendingBounds(s, b'.user);
    assert PendingTotal(s.bookings, b'.user) <= s.credits[b'.user];
  }

  /** The manual status moves that keep every invariant from every state that satisfies it. */
  predicate SafeMove(from: Status, to: Status)
  {
    || from == to
    || (from == Pending && (to == Confirmed || to == Rejected || to == Cancelled))
    || (from == Confirmed && (to == Cancelled || to == CheckedIn || to == Completed))
    || (from == CheckedIn && to == Completed)
    || (from == Rejected && to == Cancelled)
    || (from == Completed && to == CheckedIn)
  }

  lemma SetStatusKeepsInv(s: State, actor: Actor, id: BookingId, to: Status)
    requires Inv(s) && id in s.bookings && SafeMove(s.bookings[id].status, to)
    requires SetStatus(s, actor, id, to).Done?
    ensures Inv(SetStatus(s, actor, id, to).next) && Worth(SetStatus(s, actor, id, to).next) == Worth(s)
  {
    var b := s.bookings[id];
    SetStatusWrites(s, actor, id, to);
    if b.status == CheckedIn && to == Completed {
      ReleaseKeepsInv(s, b.resource);
    }
    MoveFits(MoveBase(s, b, to), id, to);
    WriteKeepsInv(MoveBase(s, b, to), id, b.(status := to), MovePays(b, to, s.now));
  }

  /** Completing a session frees its resource first. */
  function MoveBase(s: State, b: Booking, to: Status): State
    requires b.resource in s.resources
  {
    if b.status == CheckedIn && to == Completed then Freed(s, b.resource) else s
  }

  lemma SetStatusWrites(s: State, actor: Actor, id: BookingId, to: Status)
    requires SetStatus(s, actor, id, to).Done? && s.bookings[id].resource in s.resources && s.bookings[id].cost >= 0
    ensures var b := s.bookings[id];
      && SetStatus(s, actor, id, to).next == Write(MoveBase(s, b, to), id, b.(status := to), MovePays(b, to, s.now))
      && (b.status == Confirmed && to == Cancelled && b.start - s.now < FULL_REFUND_MS ==> b.cost % 2 == 0)
  {
  }

  function Freed(s: State, r: ResourceId): State
    requires r in s.resources
  {
    s.(resources := s.resources[r := Released(s.resources[r])])
  }

  lemma ReleaseKeepsInv(s: State, r: ResourceId)
    requires Inv(s) && r in s.resources
    ensures Inv(Freed(s, r))
  {
    var t := Freed(s, r);
    assert t.bookings == s.bookings && t.credits == s.credits && t.charges == s.charges && t.now == s.now;
    assert NoDoubleBooking(t) && Solvent(t) && ChargesSettled(t);
    forall x | x in s.resources ensures HonestAt(t, x) {
      assert HonestAt(s, x);
    }
  }

  /** What the user pays when the move goes through. */
  function MovePays(b: Booking, to: Status, now: int): int
  {
    if b.status == Pending && to == Confirmed then b.cost
    else if b.status == Confirmed && to == Cancelled && b.start - now >= FULL_REFUND_MS then -b.cost
    else if b.status == Confirmed && to == Cancelled then -(b.cost / 2)
    else 0
  }

  lemma MoveFits(s: State, id: BookingId, to: Status)
    requires Inv(s) && id in s.bookings
    requires var b := s.bookings[id];
      && SafeMove(b.status, to)
      && (b.status == Confirmed && to == Cancelled && b.start - s.now < FULL_REFUND_MS ==> b.cost % 2 == 0)
      && (b.status == CheckedIn && to == Completed ==> s.resources[b.resource].current != Some(id))
    ensures WriteFits(s, id, s.bookings[id].(status := to), MovePays(s.bookings[id], to, s.now))
  {
    var b := s.bookings[id];
    var moved := b.(status := to);
    PendingTotalPut(s.bookings, id, moved, b.user);
    PendingBounds(s, b.user);
    assert HonestAt(s, b.resource) && id in s.charges && Settled(b, s.charges[id]);
    StatusMoveStaysClear(s, id, to);
  }

  lemma StatusMoveStaysClear(s: State, id: BookingId, to: Status)
    requires NoDoubleBooking(s) && Referential(s) && id in s.bookings && SafeMove(s.bookings[id].status, to)
    ensures KeepsClear(s.bookings, id, s.bookings[id].(status := to), 0)
  {
    assert Apart(s.bookings, s.bookings[id].resource, 0);
  }
}

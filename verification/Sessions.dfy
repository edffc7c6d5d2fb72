/** Sessions in progress: the conflict query does not look at CHECKED_IN bookings. What keeps others clear of them? */
module Sessions {
  import opened Options
  import opened Totals
  import opened Store
  import opened Bookings
  import opened Scheduler
  import opened Maintenance
  import opened Invariants
  import opened BookingSafety
  import opened Engine

  /** Waiting, confirmed or checked in: bookings that mean to use their resource. */
  predicate Live(b: Booking)
  {
    b.Blocking() || b.status == CheckedIn
  }

  /** Live bookings of resource r do not overlap. */
  ghost predicate LiveApart(bookings: map<BookingId, Booking>, r: ResourceId)
  {
    forall i, j :: i in bookings && j in bookings && i != j
                && bookings[i].resource == r && bookings[j].resource == r
                && Live(bookings[i]) && Live(bookings[j])
                ==> Separate(bookings[i], bookings[j], 0)
  }

  ghost predicate NoOverlap(s: State)
  {
    forall r {:trigger LiveApart(s.bookings, r)} :: r in s.resources ==> LiveApart(s.bookings, r)
  }

  /** What the conflict query would find, the buffer aside, if it asked for CHECKED_IN bookings. */
  predicate SessionInTheWay(bookings: map<BookingId, Booking>, r: ResourceId, start: int, end: int)
  {
    exists id :: id in bookings && bookings[id].resource == r && bookings[id].status == CheckedIn
              && bookings[id].start < end && bookings[id].end > start
  }

  predicate LiveInTheWay(bookings: map<BookingId, Booking>, id: BookingId, b: Booking)
  {
    exists j :: j in bookings && j != id && bookings[j].resource == b.resource && Live(bookings[j])
             && bookings[j].start < b.end && bookings[j].end > b.start
  }

  /** What a caller can look up beforehand: no session is in the way of the slot asked for, and a completed booking
      is checked in again only where nothing else lives. */
  ghost predicate Careful(s: State, a: Action)
  {
    match a
    case CreateBooking(q) =>
      Create(s, q).Done? ==> !SessionInTheWay(s.bookings, q.resource, q.start, q.end)
    case RescheduleBooking(q) =>
      Reschedule(s, q).Done? ==> !SessionInTheWay(s.bookings, s.bookings[q.id].resource, q.start, q.end)
    case MoveBooking(actor, id, to) =>
      SetStatus(s, actor, id, to).Done? && s.bookings[id].status == Completed && to == CheckedIn ==>
        !LiveInTheWay(s.bookings, id, s.bookings[id])
    case _ => true
  }

  // ---- one slot ----

  /** A checked-in booking of resource r that has begun. */
  predicate UnderWay(b: Booking, r: ResourceId, now: int)
  {
    b.resource == r && b.status == CheckedIn && b.start <= now
  }

  ghost predicate ClearOfSessions(s: State, b: Booking)
  {
    forall id :: id in s.bookings && UnderWay(s.bookings[id], b.resource, s.now) ==> Separate(b, s.bookings[id], 0)
  }

  ghost predicate SessionsEndBy(s: State, r: ResourceId, start: int)
  {
    forall id :: id in s.bookings && UnderWay(s.bookings[id], r, s.now) ==> s.bookings[id].end <= start
  }

  /** A created booking is clear of the sessions under way exactly when each of them ends before it starts. */
  lemma CreateClearExact(s: State, q: CreateRequest)
    requires Inv(s) && Create(s, q).Done?
    ensures ClearOfSessions(s, Create(s, q).next.bookings[q.id]) <==> SessionsEndBy(s, q.resource, q.start)
  {
    SlotClearExact(s, Create(s, q).next.bookings[q.id]);
  }

  /** So is a rescheduled one. */
  lemma RescheduleClearExact(s: State, q: RescheduleRequest)
    requires Inv(s) && Reschedule(s, q).Done?
    ensures ClearOfSessions(s, Reschedule(s, q).next.bookings[q.id])
       <==> SessionsEndBy(s, s.bookings[q.id].resource, q.start)
  {
    SlotClearExact(s, Reschedule(s, q).next.bookings[q.id]);
  }

  lemma SlotClearExact(s: State, b: Booking)
    requires WellFormed(s) && s.now <= b.start < b.end
    ensures ClearOfSessions(s, b) <==> SessionsEndBy(s, b.resource, b.start)
  {
  }

  // ---- one step ----

  /** Rows keep their time and resource, and none comes alive. */
  ghost predicate Lingers(before: map<BookingId, Booking>, after: map<BookingId, Booking>)
  {
    && after.Keys == before.Keys
    && forall id {:trigger after[id]} :: id in before ==>
         && after[id] == before[id].(status := after[id].status)
         && (Live(after[id]) ==> Live(before[id]))
  }

  lemma LingeringKeepsApart(s: State, t: State)
    requires NoOverlap(s) && Lingers(s.bookings, t.bookings) && t.resources.Keys == s.resources.Keys
    ensures NoOverlap(t)
  {
    forall r | r in t.resources ensures LiveApart(t.bookings, r) {
      assert LiveApart(s.bookings, r);
    }
  }

  /** Writing one row keeps live bookings apart exactly when the row is not live or nothing live is in its way. */
  lemma WriteKeepsApartExact(s: State, t: State, id: BookingId, b: Booking)
    requires WellFormed(s) && NoOverlap(s) && t.bookings == s.bookings[id := b] && t.resources.Keys == s.resources.Keys
    requires b.resource in s.resources && b.start < b.end
    ensures NoOverlap(t) <==> !Live(b) || !LiveInTheWay(s.bookings, id, b)
  {
    if !Live(b) || !LiveInTheWay(s.bookings, id, b) {
      forall r | r in t.resources ensures LiveApart(t.bookings, r) {
        assert LiveApart(s.bookings, r);
      }
    } else {
      var j :| j in s.bookings && j != id && s.bookings[j].resource == b.resource && Live(s.bookings[j])
            && s.bookings[j].start < b.end && s.bookings[j].end > b.start;
      assert !Separate(t.bookings[id], t.bookings[j], 0);
      assert !LiveApart(t.bookings, b.resource);
    }
  }

  /** In a free slot only a session can be in the way. */
  lemma OnlySessionsAreInTheWay(bookings: map<BookingId, Booking>, id: BookingId, b: Booking, buffer: nat)
    requires !SlotTaken(bookings - {id}, b.resource, b.start, b.end, buffer)
    requires id in bookings ==> bookings[id].status != CheckedIn
    ensures LiveInTheWay(bookings, id, b) <==> SessionInTheWay(bookings, b.resource, b.start, b.end)
  {
    if LiveInTheWay(bookings, id, b) {
      var j :| j in bookings && j != id && bookings[j].resource == b.resource && Live(bookings[j])
            && bookings[j].start < b.end && bookings[j].end > b.start;
      assert j in bookings - {id} && !Conflicts((bookings - {id})[j], b.resource, b.start, b.end, buffer);
      assert bookings[j].status == CheckedIn;
    }
  }

  lemma CreateExact(s: State, q: CreateRequest)
    requires Inv(s) && NoOverlap(s) && Create(s, q).Done?
    ensures NoOverlap(Create(s, q).next) <==> !SessionInTheWay(s.bookings, q.resource, q.start, q.end)
  {
    var b := Create(s, q).next.bookings[q.id];
    assert s.bookings - {q.id} == s.bookings;
    OnlySessionsAreInTheWay(s.bookings, q.id, b, s.resources[q.resource].buffer);
    WriteKeepsApartExact(s, Create(s, q).next, q.id, b);
  }

  lemma RescheduleExact(s: State, q: RescheduleRequest)
    requires Inv(s) && NoOverlap(s) && Reschedule(s, q).Done?
    ensures NoOverlap(Reschedule(s, q).next)
       <==> !SessionInTheWay(s.bookings, s.bookings[q.id].resource, q.start, q.end)
  {
    var b := Reschedule(s, q).next.bookings[q.id];
    OnlySessionsAreInTheWay(s.bookings, q.id, b, s.resources[b.resource].buffer);
    WriteKeepsApartExact(s, Reschedule(s, q).next, q.id, b);
  }

  lemma MoveExact(s: State, actor: Actor, id: BookingId, to: Status)
    requires Inv(s) && NoOverlap(s) && SetStatus(s, actor, id, to).Done? && SafeMove(s.bookings[id].status, to)
    ensures NoOverlap(SetStatus(s, actor, id, to).next)
       <==> !(s.bookings[id].status == Completed && to == CheckedIn && LiveInTheWay(s.bookings, id, s.bookings[id]))
  {
    var t := SetStatus(s, actor, id, to).next;
    MoveWrites(s, actor, id, to);
    if s.bookings[id].status == Completed && to == CheckedIn {
      WriteKeepsApartExact(s, t, id, s.bookings[id].(status := to));
    } else {
      MoveLingers(s.bookings, id, to);
      LingeringKeepsApart(s, t);
    }
  }

  lemma MoveWrites(s: State, actor: Actor, id: BookingId, to: Status)
    requires SetStatus(s, actor, id, to).Done?
    ensures SetStatus(s, actor, id, to).next.bookings == s.bookings[id := s.bookings[id].(status := to)]
    ensures SetStatus(s, actor, id, to).next.resources.Keys == s.resources.Keys
  {
  }

  lemma MoveLingers(bookings: map<BookingId, Booking>, id: BookingId, to: Status)
    requires id in bookings && SafeMove(bookings[id].status, to)
    requires !(bookings[id].status == Completed && to == CheckedIn)
    ensures Lingers(bookings, bookings[id := bookings[id].(status := to)])
  {
  }

  lemma MarkingLingers(bookings: map<BookingId, Booking>, chosen: set<BookingId>, to: Status)
    requires to == Completed || to == Cancelled
          || (to == CheckedIn && forall id :: id in chosen && id in bookings ==> Live(bookings[id]))
    ensures Lingers(bookings, Mark(bookings, chosen, to))
  {
  }

  lemma CancellingLingers(bookings: map<BookingId, Booking>, ids: set<BookingId>)
    ensures Lingers(bookings, CancelledBookings(bookings, ids))
  {
  }

  lemma OthersLinger(s: State, a: Action, t: State)
    requires Step(s, a, t)
    requires !a.CreateBooking? && !a.RescheduleBooking? && !a.MoveBooking?
    ensures Lingers(s.bookings, t.bookings) && t.resources.Keys == s.resources.Keys
  {
    match a
    case AutoCancel => MarkingLingers(s.bookings, ExpiredIds(s), Cancelled);
    case AutoCheckIn => MarkingLingers(s.bookings, ArrivedIds(s), CheckedIn);
    case AutoComplete => MarkingLingers(s.bookings, FinishedIds(s), Completed);
    case ToggleMaintenance(r, _) => CancellingLingers(s.bookings, Doomed(s, r));
    case _ =>
  }

  /** A step keeps pending, confirmed and checked-in bookings of every resource disjoint exactly when it is careful. */
  lemma StepKeepsApartExact(s: State, a: Action, t: State)
    requires Inv(s) && NoOverlap(s) && Step(s, a, t) && Disciplined(s, a)
    ensures NoOverlap(t) <==> Careful(s, a)
  {
    match a
    case CreateBooking(q) => if Create(s, q).Done? { CreateExact(s, q); }
    case RescheduleBooking(q) => if Reschedule(s, q).Done? { RescheduleExact(s, q); }
    case MoveBooking(actor, id, to) => if SetStatus(s, actor, id, to).Done? { MoveExact(s, actor, id, to); }
    case _ =>
      OthersLinger(s, a, t);
      LingeringKeepsApart(s, t);
  }

  // ---- runs ----

  ghost predicate NeverOverlaps(states: seq<State>, n: nat)
    requires n < |states|
  {
    forall i :: 0 <= i <= n ==> NoOverlap(states[i])
  }

  ghost predicate AlwaysCareful(states: seq<State>, actions: seq<Action>, n: nat)
    requires n <= |actions| && n <= |states|
  {
    forall i :: 0 <= i < n ==> Careful(states[i], actions[i])
  }

  /** A run is free of overlaps, sessions included, exactly when every one of its steps is careful. */
  lemma {:induction false} OverlapFreeRunsExact(states: seq<State>, actions: seq<Action>, n: nat)
    requires IsRun(states, actions) && n <= |actions|
    requires Inv(states[0]) && NoOverlap(states[0])
    ensures NeverOverlaps(states, n) <==> AlwaysCareful(states, actions, n)
  {
    if n > 0 {
      OverlapFreeRunsExact(states, actions, n - 1);
      EveryRunIsSafe(states, actions, n - 1);
      var s, a, t := states[n - 1], actions[n - 1], states[n - 1 + 1];
      assert Step(s, a, t) && Disciplined(s, a);
      if NeverOverlaps(states, n) || AlwaysCareful(states, actions, n) {
        assert NoOverlap(s);
        StepKeepsApartExact(s, a, t);
      }
    }
  }

  // ---- a run that overlaps ----

  const GUARDS := Guards(true, true, false, None)
  const FIRST := CreateRequest(0, Actor(0, false), 0, 0, HOUR, 2 * HOUR, GUARDS)
  const SECOND := CreateRequest(1, Actor(0, false), 0, 0, HOUR + HOUR / 2, HOUR + HOUR / 2 + HOUR / 10, GUARDS)
  const ROOM := Resource(10.0, 0, true, false, false, None, None)
  const SESSION := Booking(0, 0, HOUR, 2 * HOUR, 10, Confirmed)

  const EMPTY := State(0, 0, map[0 := 100], map[0 := ROOM], map[], map[])
  const BOOKED := State(0, 0, map[0 := 90], map[0 := ROOM], map[0 := SESSION], map[0 := 10])
  const BEGUN := BOOKED.(now := HOUR + HOUR / 2)
  const ARRIVED := BEGUN.(
    bookings := map[0 := SESSION.(status := CheckedIn)],
    resources := map[0 := ROOM.(occupied := true, current := Some(0))])

  lemma FirstIsBooked()
    ensures Create(EMPTY, FIRST) == Done(BOOKED)
  {
    assert PendingCosts(map[], 0) == map[];
    assert ExactCost(HOUR, 10.0) == 10.0;
    var t := Write(EMPTY, 0, SESSION, 10);
    assert t.bookings == BOOKED.bookings && t.credits == BOOKED.credits && t.charges == BOOKED.charges;
  }

  lemma FirstArrives()
    ensures CheckInSweep(BEGUN, ARRIVED)
  {
    assert ArrivedIds(BEGUN) == {0};
    assert Mark(BEGUN.bookings, {0}, CheckedIn) == ARRIVED.bookings;
    assert OccupiedByOne(BEGUN.bookings, {0}, 0, ROOM, ARRIVED.resources[0]);
  }

  lemma SecondIsBooked()
    ensures Create(ARRIVED, SECOND).Done?
  {
    var costs := PendingCosts(ARRIVED.bookings, 0);
    assert costs == map[0 := 0];
    TotalDrop(costs, 0);
    assert costs - {0} == map[];
    assert ExactCost(HOUR / 10, 10.0) == 1.0;
    assert !SlotTaken(ARRIVED.bookings, 0, SECOND.start, SECOND.end, 0);
  }

  function Overlapping(): State
  {
    Resulting(ARRIVED, Create(ARRIVED, SECOND))
  }

  lemma SessionOverlaps()
    ensures Create(ARRIVED, SECOND).Done? && !NoOverlap(Overlapping())
  {
    SecondIsBooked();
    var bookings := Overlapping().bookings;
    assert bookings[0] == ARRIVED.bookings[0] && !Separate(bookings[0], bookings[1], 0);
    assert !LiveApart(bookings, 0);
  }

  function Story(): seq<State>
  {
    [EMPTY, BOOKED, BEGUN, ARRIVED, Overlapping()]
  }

  function Script(): seq<Action>
  {
    [CreateBooking(FIRST), Wait(HOUR + HOUR / 2), AutoCheckIn, CreateBooking(SECOND)]
  }

  lemma StoryIsRun()
    ensures IsRun(Story(), Script())
  {
    assert Step(EMPTY, CreateBooking(FIRST), BOOKED) by { FirstIsBooked(); }
    assert Step(BOOKED, Wait(HOUR + HOUR / 2), BEGUN);
    assert Step(BEGUN, AutoCheckIn, ARRIVED) by { FirstArrives(); }
    assert Step(ARRIVED, CreateBooking(SECOND), Overlapping());
    FourSteps([EMPTY, BOOKED, BEGUN, ARRIVED, Overlapping()], Script());
  }

  lemma FourSteps(states: seq<State>, actions: seq<Action>)
    requires |states| == 5 && |actions| == 4
    requires Step(states[0], actions[0], states[1]) && Disciplined(states[0], actions[0])
    requires Step(states[1], actions[1], states[2]) && Disciplined(states[1], actions[1])
    requires Step(states[2], actions[2], states[3]) && Disciplined(states[2], actions[2])
    requires Step(states[3], actions[3], states[4]) && Disciplined(states[3], actions[3])
    ensures IsRun(states, actions)
  {
    forall i | 0 <= i < 4 ensures Step(states[i], actions[i], states[i + 1]) && Disciplined(states[i], actions[i]) {
      assert i == 0 || i == 1 || i == 2 || i == 3;
    }
  }

  /** A run from an organization without bookings: one is confirmed, its time comes, it is checked in, and then
      createBooking accepts a slot in the middle of the session. */
  lemma SessionsDoNotBlock()
    ensures IsRun(Story(), Script()) && Initial(Story()[0])
    ensures Script()[3] == CreateBooking(SECOND) && Create(Story()[3], SECOND).Done?
    ensures var session := Story()[3].bookings[0];
      && session.status == CheckedIn && session.resource == SECOND.resource
      && session.start < SECOND.start < SECOND.end < session.end
    ensures !NoOverlap(Story()[4])
  {
    StoryIsRun();
    SessionOverlaps();
  }
}

/** Is every checked-in booking the one its resource names? Occupancy the other way round. */
module Seats {
  import opened Options
  import opened Totals
  import opened Store
  import opened Bookings
  import opened Scheduler
  import opened Maintenance
  import opened Invariants
  import opened Engine
  import opened Sessions

  predicate SeatedAt(s: State, id: BookingId)
    requires id in s.bookings
  {
    var b := s.bookings[id];
    b.status == CheckedIn && b.resource in s.resources ==> s.resources[b.resource].current == Some(id)
  }

  /** Every checked-in booking is the current one of its resource. */
  ghost predicate Seated(s: State)
  {
    forall id {:trigger SeatedAt(s, id)} :: id in s.bookings ==> SeatedAt(s, id)
  }

  /** No booking that has arrived shares its resource with another arrival or with a session. */
  ghost predicate ArrivalsAlone(s: State)
  {
    forall i, j :: i in s.bookings && j in s.bookings && i != j && s.bookings[i].resource == s.bookings[j].resource
                && Arrived(s.bookings[i], s.now)
                ==> !Arrived(s.bookings[j], s.now) && s.bookings[j].status != CheckedIn
  }

  /** What can be looked up beforehand: nothing is checked in by hand, and a check-in sweep meets one arrival at most
      on each resource, and none where a session goes on. */
  ghost predicate Orderly(s: State, a: Action)
  {
    match a
    case MoveBooking(actor, id, to) =>
      SetStatus(s, actor, id, to).Done? && to == CheckedIn ==> s.bookings[id].status == CheckedIn
    case AutoCheckIn => ArrivalsAlone(s)
    case _ => true
  }

  // ---- steps that check nobody in ----

  /** Who is checked in afterwards was before, and the resource still names them if it did. */
  ghost predicate NobodySits(s: State, t: State)
  {
    && t.resources.Keys == s.resources.Keys
    && forall id :: id in t.bookings && t.bookings[id].status == CheckedIn ==>
         && id in s.bookings && s.bookings[id].status == CheckedIn && s.bookings[id].resource == t.bookings[id].resource
         && (t.bookings[id].resource in s.resources && s.resources[t.bookings[id].resource].current == Some(id) ==>
               t.resources[t.bookings[id].resource].current == Some(id))
  }

  lemma StaysSeated(s: State, t: State)
    requires Seated(s) && NobodySits(s, t)
    ensures Seated(t)
  {
    forall id | id in t.bookings ensures SeatedAt(t, id) {
      if t.bookings[id].status == CheckedIn {
        assert SeatedAt(s, id);
      }
    }
  }

  /** A manual move writes one status, and frees the resource when it completes a session. */
  lemma MoveWritesStatus(s: State, actor: Actor, id: BookingId, to: Status)
    requires SetStatus(s, actor, id, to).Done?
    ensures var t, b := SetStatus(s, actor, id, to).next, s.bookings[id];
      && t.bookings == s.bookings[id := b.(status := to)]
      && t.resources == if b.status == CheckedIn && to == Completed && b.resource in s.resources
                        then s.resources[b.resource := Released(s.resources[b.resource])]
                        else s.resources
  {
  }

  lemma MoveSeatsNobody(s: State, actor: Actor, id: BookingId, to: Status)
    requires Inv(s) && Seated(s) && SetStatus(s, actor, id, to).Done?
    requires to != CheckedIn || s.bookings[id].status == CheckedIn
    ensures NobodySits(s, SetStatus(s, actor, id, to).next)
  {
    var t := SetStatus(s, actor, id, to).next;
    MoveWritesStatus(s, actor, id, to);
    forall j | j in t.bookings && t.bookings[j].status == CheckedIn
      ensures j in s.bookings && s.bookings[j].status == CheckedIn
      ensures s.bookings[j].resource == t.bookings[j].resource
      ensures s.resources[t.bookings[j].resource].current == Some(j) ==>
        t.resources[t.bookings[j].resource].current == Some(j)
    {
      assert SeatedAt(s, j) && SeatedAt(s, id);
    }
  }

  lemma CompletingSeatsNobody(s: State)
    requires Inv(s) && Seated(s)
    ensures NobodySits(s, CompleteSweep(s))
  {
    var t := CompleteSweep(s);
    forall j | j in t.bookings && t.bookings[j].status == CheckedIn
      ensures j in s.bookings && s.bookings[j].status == CheckedIn
      ensures s.bookings[j].resource == t.bookings[j].resource
      ensures t.resources[t.bookings[j].resource].current == Some(j)
    {
      assert SeatedAt(s, j);
      forall id | id in FinishedIds(s) ensures s.bookings[id].resource != s.bookings[j].resource {
        assert SeatedAt(s, id);
      }
    }
  }

  lemma ToggleSeatsNobody(s: State, r: ResourceId, orgActive: bool)
    requires Toggle(s, r, orgActive).Done?
    ensures NobodySits(s, Toggle(s, r, orgActive).next)
  {
  }

  lemma CreateSeatsNobody(s: State, q: CreateRequest)
    requires Create(s, q).Done?
    ensures NobodySits(s, Create(s, q).next)
  {
  }

  lemma RescheduleSeatsNobody(s: State, q: RescheduleRequest)
    requires Reschedule(s, q).Done?
    ensures NobodySits(s, Reschedule(s, q).next)
  {
  }

  // ---- steps that check somebody in ----

  /** Whoever is checked in by hand has no seat: the resource names only checked-in bookings. */
  lemma HandMovesUnseat(s: State, actor: Actor, id: BookingId)
    requires Inv(s) && SetStatus(s, actor, id, CheckedIn).Done? && s.bookings[id].status != CheckedIn
    ensures !Seated(SetStatus(s, actor, id, CheckedIn).next)
  {
    var t := SetStatus(s, actor, id, CheckedIn).next;
    assert HonestAt(s, s.bookings[id].resource);
    assert t.bookings[id].status == CheckedIn && t.resources == s.resources;
    assert !SeatedAt(t, id);
  }

  lemma CrowdedSweepUnseats(s: State, t: State)
    requires Inv(s) && CheckInSweep(s, t) && !ArrivalsAlone(s)
    ensures !Seated(t)
  {
    var i, j :| i in s.bookings && j in s.bookings && i != j && s.bookings[i].resource == s.bookings[j].resource
             && Arrived(s.bookings[i], s.now)
             && (Arrived(s.bookings[j], s.now) || s.bookings[j].status == CheckedIn);
    assert t.bookings[i].status == CheckedIn && t.bookings[j].status == CheckedIn;
    assert t.bookings[i].resource == t.bookings[j].resource;
    assert !SeatedAt(t, i) || !SeatedAt(t, j);
  }

  lemma LoneSweepSeats(s: State, t: State)
    requires Inv(s) && Seated(s) && CheckInSweep(s, t) && ArrivalsAlone(s)
    ensures Seated(t)
  {
    forall id | id in t.bookings ensures SeatedAt(t, id) {
      if t.bookings[id].status == CheckedIn {
        SeatAfterSweep(s, t, id);
      }
    }
  }

  lemma SeatAfterSweep(s: State, t: State, id: BookingId)
    requires Inv(s) && Seated(s) && CheckInSweep(s, t) && ArrivalsAlone(s)
    requires id in t.bookings && t.bookings[id].status == CheckedIn
    ensures SeatedAt(t, id)
  {
    var arrived, r := ArrivedIds(s), s.bookings[id].resource;
    assert SeatedAt(s, id);
    if Touches(s.bookings, arrived, r) {
      assert OccupiedByOne(s.bookings, arrived, r, s.resources[r], t.resources[r]);
      var k :| k in arrived && s.bookings[k].resource == r && t.resources[r].current == Some(k);
      assert k == id;
    } else {
      assert id !in arrived && t.resources[r] == s.resources[r];
    }
  }

  // ---- any step, any run ----

  /** A step keeps every checked-in booking in its resource's seat exactly when it is orderly. */
  lemma StepKeepsSeatsExact(s: State, a: Action, t: State)
    requires Inv(s) && Seated(s) && Step(s, a, t) && Disciplined(s, a)
    ensures Seated(t) <==> Orderly(s, a)
  {
    match a
    case CreateBooking(q) => if Create(s, q).Done? { CreateSeatsNobody(s, q); StaysSeated(s, t); }
    case RescheduleBooking(q) => if Reschedule(s, q).Done? { RescheduleSeatsNobody(s, q); StaysSeated(s, t); }
    case MoveBooking(actor, id, to) => if SetStatus(s, actor, id, to).Done? { MoveKeepsSeatsExact(s, actor, id, to); }
    case AutoCheckIn => if ArrivalsAlone(s) { LoneSweepSeats(s, t); } else { CrowdedSweepUnseats(s, t); }
    case AutoComplete => CompletingSeatsNobody(s); StaysSeated(s, t);
    case ToggleMaintenance(r, active) =>
      if Toggle(s, r, active).Done? { ToggleSeatsNobody(s, r, active); StaysSeated(s, t); }
    case _ => OtherStepsSeatNobody(s, a, t); StaysSeated(s, t);
  }

  lemma MoveKeepsSeatsExact(s: State, actor: Actor, id: BookingId, to: Status)
    requires Inv(s) && Seated(s) && SetStatus(s, actor, id, to).Done?
    ensures Seated(SetStatus(s, actor, id, to).next) <==> to != CheckedIn || s.bookings[id].status == CheckedIn
  {
    if to == CheckedIn && s.bookings[id].status != CheckedIn {
      HandMovesUnseat(s, actor, id);
    } else {
      MoveSeatsNobody(s, actor, id, to);
      StaysSeated(s, SetStatus(s, actor, id, to).next);
    }
  }

  lemma OtherStepsSeatNobody(s: State, a: Action, t: State)
    requires Step(s, a, t)
    requires !a.CreateBooking? && !a.RescheduleBooking? && !a.MoveBooking?
    requires !a.AutoCheckIn? && !a.AutoComplete? && !a.ToggleMaintenance?
    ensures NobodySits(s, t)
  {
  }

  ghost predicate AlwaysSeated(states: seq<State>, n: nat)
    requires n < |states|
  {
    forall i :: 0 <= i <= n ==> Seated(states[i])
  }

  ghost predicate AlwaysOrderly(states: seq<State>, actions: seq<Action>, n: nat)
    requires n <= |actions| && n <= |states|
  {
    forall i :: 0 <= i < n ==> Orderly(states[i], actions[i])
  }

  lemma OneMoreState(states: seq<State>, actions: seq<Action>, n: nat)
    requires 0 < n < |states| && n <= |actions|
    ensures AlwaysSeated(states, n) <==> AlwaysSeated(states, n - 1) && Seated(states[n])
    ensures AlwaysOrderly(states, actions, n)
       <==> AlwaysOrderly(states, actions, n - 1) && Orderly(states[n - 1], actions[n - 1])
  {
  }

  lemma RunKeepsSeatsExact(states: seq<State>, actions: seq<Action>, i: nat)
    requires IsRun(states, actions) && i < |actions|
    requires Inv(states[0]) && Seated(states[i])
    ensures Seated(states[i + 1]) <==> Orderly(states[i], actions[i])
  {
    EveryRunIsSafe(states, actions, i);
    StepOfRun(states, actions, i);
    StepKeepsSeatsExact(states[i], actions[i], states[i + 1]);
  }

  /** Over a run every checked-in booking occupies its resource throughout exactly when every step is orderly. */
  lemma {:induction false} SeatedRunsExact(states: seq<State>, actions: seq<Action>, n: nat)
    requires IsRun(states, actions) && n <= |actions|
    requires Inv(states[0]) && Seated(states[0])
    ensures AlwaysSeated(states, n) <==> AlwaysOrderly(states, actions, n)
  {
    if n > 0 {
      SeatedRunsExact(states, actions, n - 1);
      OneMoreState(states, actions, n);
      if AlwaysSeated(states, n - 1) {
        RunKeepsSeatsExact(states, actions, n - 1);
      }
    }
  }

  // ---- two runs that fail ----

  const BY_HAND := BOOKED.(bookings := map[0 := SESSION.(status := CheckedIn)])

  /** Check in by hand: the resource stays free. */
  lemma CheckedInByHand()
    ensures var states := [EMPTY, BOOKED, BY_HAND];
      var actions := [CreateBooking(FIRST), MoveBooking(Actor(0, false), 0, CheckedIn)];
      && IsRun(states, actions) && Initial(states[0])
      && states[2].bookings[0].status == CheckedIn && !states[2].resources[0].occupied && !Seated(states[2])
  {
    var states := [EMPTY, BOOKED, BY_HAND];
    var actions := [CreateBooking(FIRST), MoveBooking(Actor(0, false), 0, CheckedIn)];
    assert Step(EMPTY, CreateBooking(FIRST), BOOKED) by { FirstIsBooked(); }
    HandMove();
    assert !SeatedAt(BY_HAND, 0);
    forall i | 0 <= i < 2 ensures Step(states[i], actions[i], states[i + 1]) && Disciplined(states[i], actions[i]) {
      assert i == 0 || i == 1;
    }
  }

  lemma HandMove()
    ensures SetStatus(BOOKED, Actor(0, false), 0, CheckedIn) == Done(BY_HAND)
  {
    var t := Write(BOOKED, 0, SESSION.(status := CheckedIn), 0);
    assert t.bookings == BY_HAND.bookings && t.credits == BY_HAND.credits && t.charges == BY_HAND.charges;
  }

  const NEXT := CreateRequest(1, Actor(0, false), 0, 0, 2 * HOUR, 3 * HOUR, GUARDS)
  const FOLLOWING := Booking(0, 0, 2 * HOUR, 3 * HOUR, 10, Confirmed)
  const BOTH := BOOKED.(
    credits := map[0 := 80], bookings := map[0 := SESSION, 1 := FOLLOWING], charges := map[0 := 10, 1 := 10])
  const LATE := BOTH.(now := 2 * HOUR + 1)
  const CROWDED := LATE.(
    bookings := map[0 := SESSION.(status := CheckedIn), 1 := FOLLOWING.(status := CheckedIn)],
    resources := map[0 := ROOM.(occupied := true, current := Some(1))])

  lemma NextIsBooked()
    ensures Create(BOOKED, NEXT) == Done(BOTH)
  {
    var costs := PendingCosts(BOOKED.bookings, 0);
    assert costs == map[0 := 0];
    TotalDrop(costs, 0);
    assert costs - {0} == map[];
    assert ExactCost(HOUR, 10.0) == 10.0;
    assert !SlotTaken(BOOKED.bookings, 0, NEXT.start, NEXT.end, 0);
    var t := Write(BOOKED, 1, FOLLOWING, 10);
    assert t.bookings == BOTH.bookings && t.credits == BOTH.credits && t.charges == BOTH.charges;
  }

  lemma BothArrive()
    ensures CheckInSweep(LATE, CROWDED)
  {
    assert ArrivedIds(LATE) == {0, 1};
    assert Mark(LATE.bookings, {0, 1}, CheckedIn) == CROWDED.bookings;
    assert OccupiedByOne(LATE.bookings, {0, 1}, 0, ROOM, CROWDED.resources[0]);
  }

  function Crowd(): seq<State>
  {
    [EMPTY, BOOKED, BOTH, LATE, CROWDED]
  }

  function CrowdScript(): seq<Action>
  {
    [CreateBooking(FIRST), CreateBooking(NEXT), Wait(2 * HOUR + 1), AutoCheckIn]
  }

  lemma CrowdIsRun()
    ensures IsRun(Crowd(), CrowdScript())
  {
    assert Step(EMPTY, CreateBooking(FIRST), BOOKED) by { FirstIsBooked(); }
    assert Step(BOOKED, CreateBooking(NEXT), BOTH) by { NextIsBooked(); }
    assert Step(BOTH, Wait(2 * HOUR + 1), LATE);
    assert Step(LATE, AutoCheckIn, CROWDED) by { BothArrive(); }
    FourSteps([EMPTY, BOOKED, BOTH, LATE, CROWDED], CrowdScript());
  }

  /** Two bookings in a row that one sweep checks in together: the resource can name only one of them. */
  lemma CheckedInTogether()
    ensures IsRun(Crowd(), CrowdScript()) && Initial(Crowd()[0]) && CrowdScript()[3] == AutoCheckIn
    ensures Crowd()[4].bookings[0].status == Crowd()[4].bookings[1].status == CheckedIn
    ensures !Seated(Crowd()[4])
  {
    CrowdIsRun();
    assert !SeatedAt(CROWDED, 0);
  }
}

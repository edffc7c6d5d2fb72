/** What switching maintenance on and off does, and what it keeps from happening in between. */
module MaintenanceLaws {
  import opened Store
  import opened Bookings
  import opened Scheduler
  import opened Maintenance
  import opened Invariants
  import opened BookingLaws
  import opened Engine
  import opened Sessions

  predicate Upcoming(b: Booking, r: ResourceId, now: int)
  {
    b.resource == r && (b.status == Pending || b.status == Confirmed) && b.end >= now
  }

  /** The toggle is accepted exactly for a known, unoccupied resource of an active organization. */
  lemma ToggleAcceptedExact(s: State, r: ResourceId, orgActive: bool)
    ensures Toggle(s, r, orgActive).Done? <==> orgActive && r in s.resources && !s.resources[r].occupied
    ensures r !in s.resources ==> Toggle(s, r, orgActive) == Refused(NotFound)
    ensures r in s.resources && !orgActive ==> Toggle(s, r, orgActive) == Refused(Forbidden)
    ensures r in s.resources && orgActive && s.resources[r].occupied ==>
      Toggle(s, r, orgActive) == Refused(ResourceOccupied)
  {
  }

  /** It negates the flag, and nothing else about any resource. Switched on, it cancels exactly the resource's pending
      and confirmed bookings that are not over; switched off, none. */
  lemma ToggledExact(s: State, r: ResourceId, orgActive: bool)
    requires Toggle(s, r, orgActive).Done?
    ensures r in s.resources
    ensures var t, on := Toggle(s, r, orgActive).next, !s.resources[r].maintenance;
      && t.now == s.now && t.pool == s.pool
      && t.resources == s.resources[r := s.resources[r].(maintenance := on)]
      && t.bookings.Keys == s.bookings.Keys
      && (forall id :: id in s.bookings ==>
            t.bookings[id] == if on && Upcoming(s.bookings[id], r, s.now) then s.bookings[id].(status := Cancelled)
                              else s.bookings[id])
      && (!on ==> t.credits == s.credits && t.charges == s.charges)
  {
  }

  // ---- while maintenance lasts ----

  ghost predicate Toggles(s: State, a: Action, r: ResourceId)
  {
    a.ToggleMaintenance? && a.resource == r && Toggle(s, r, a.orgActive).Done?
  }

  /** Resource r is under maintenance. */
  predicate Shut(s: State, r: ResourceId)
  {
    r in s.resources && s.resources[r].maintenance
  }

  /** The same bookings of resource r, at the same times. */
  ghost predicate SameSchedule(s: State, t: State, r: ResourceId)
  {
    && (forall id :: id in s.bookings && s.bookings[id].resource == r ==>
          && id in t.bookings && t.bookings[id].resource == r
          && t.bookings[id].start == s.bookings[id].start && t.bookings[id].end == s.bookings[id].end)
    && (forall id :: id in t.bookings && t.bookings[id].resource == r ==>
          id in s.bookings && s.bookings[id].resource == r)
  }

  lemma OthersKeepSchedule(s: State, a: Action, t: State, r: ResourceId)
    requires Inv(s) && Step(s, a, t) && !a.CreateBooking? && !a.RescheduleBooking? && !a.MoveBooking?
    ensures SameSchedule(s, t, r)
  {
    OthersLinger(s, a, t);
    LingeringKeepsSchedule(s, t, r);
  }

  lemma LingeringKeepsSchedule(s: State, t: State, r: ResourceId)
    requires Lingers(s.bookings, t.bookings)
    ensures SameSchedule(s, t, r)
  {
  }

  lemma OthersKeepShut(s: State, a: Action, t: State, r: ResourceId)
    requires Inv(s) && Step(s, a, t) && !a.CreateBooking? && !a.RescheduleBooking? && !a.MoveBooking?
    requires Shut(s, r) && !Toggles(s, a, r)
    ensures Shut(t, r)
  {
    if a.AutoCheckIn? && Touches(s.bookings, ArrivedIds(s), r) {
      assert OccupiedByOne(s.bookings, ArrivedIds(s), r, s.resources[r], t.resources[r]);
    }
  }

  lemma CreatingLeavesShut(s: State, q: CreateRequest, r: ResourceId)
    requires Inv(s) && Create(s, q).Done? && Shut(s, r)
    ensures Shut(Create(s, q).next, r) && SameSchedule(s, Create(s, q).next, r)
  {
    CreatedExact(s, q);
    CreateAcceptedExact(s, q);
  }

  lemma ReschedulingLeavesShut(s: State, q: RescheduleRequest, r: ResourceId)
    requires Inv(s) && Reschedule(s, q).Done? && Shut(s, r)
    ensures Shut(Reschedule(s, q).next, r) && SameSchedule(s, Reschedule(s, q).next, r)
  {
    RescheduledExact(s, q);
    RescheduleAcceptedExact(s, q);
  }

  lemma MovingLeavesShut(s: State, actor: Actor, id: BookingId, to: Status, r: ResourceId)
    requires Inv(s) && SetStatus(s, actor, id, to).Done? && Shut(s, r)
    ensures Shut(SetStatus(s, actor, id, to).next, r) && SameSchedule(s, SetStatus(s, actor, id, to).next, r)
  {
    MovedExact(s, actor, id, to);
  }

  /** No booking is created on a shut resource or moved there, and it stays shut until it is toggled. */
  lemma ShutStep(s: State, a: Action, t: State, r: ResourceId)
    requires Inv(s) && Step(s, a, t) && Shut(s, r) && !Toggles(s, a, r)
    ensures Shut(t, r) && SameSchedule(s, t, r)
  {
    match a
    case CreateBooking(q) => if Create(s, q).Done? { CreatingLeavesShut(s, q, r); }
    case RescheduleBooking(q) => if Reschedule(s, q).Done? { ReschedulingLeavesShut(s, q, r); }
    case MoveBooking(actor, id, to) => if SetStatus(s, actor, id, to).Done? { MovingLeavesShut(s, actor, id, to, r); }
    case _ => OthersKeepSchedule(s, a, t, r); OthersKeepShut(s, a, t, r);
  }

  ghost predicate SwitchesOn(s: State, a: Action, r: ResourceId)
  {
    Toggles(s, a, r) && !s.resources[r].maintenance
  }

  ghost predicate Untoggled(states: seq<State>, actions: seq<Action>, i: nat, j: nat, r: ResourceId)
    requires j <= |actions| && j <= |states|
  {
    forall k :: i < k < j ==> !Toggles(states[k], actions[k], r)
  }

  /** Shut in t, with the schedule it had in s. */
  ghost predicate ShutSince(s: State, t: State, r: ResourceId)
  {
    Shut(t, r) && SameSchedule(s, t, r)
  }

  lemma SwitchedOn(states: seq<State>, actions: seq<Action>, i: nat, r: ResourceId)
    requires IsRun(states, actions) && i < |actions| && SwitchesOn(states[i], actions[i], r)
    ensures ShutSince(states[i + 1], states[i + 1], r)
  {
    StepOfRun(states, actions, i);
    ToggledExact(states[i], r, actions[i].orgActive);
  }

  lemma ShutOneMore(states: seq<State>, actions: seq<Action>, k: nat, s: State, r: ResourceId)
    requires IsRun(states, actions) && Inv(states[0]) && k < |actions|
    requires ShutSince(s, states[k], r) && !Toggles(states[k], actions[k], r)
    ensures ShutSince(s, states[k + 1], r)
  {
    StepOfRun(states, actions, k);
    EveryRunIsSafe(states, actions, k);
    ShutStep(states[k], actions[k], states[k + 1], r);
    SameTwice(s, states[k], states[k + 1], r);
  }

  lemma SameTwice(s: State, t: State, u: State, r: ResourceId)
    requires SameSchedule(s, t, r) && SameSchedule(t, u, r)
    ensures SameSchedule(s, u, r)
  {
  }

  /** From an accepted switching on until the next accepted toggle the resource stays under maintenance, and no booking
      of it is created or moved in time. */
  lemma {:induction false} MaintenanceHolds(states: seq<State>, actions: seq<Action>, i: nat, j: nat, r: ResourceId)
    requires IsRun(states, actions) && Inv(states[0]) && i < j <= |actions|
    requires SwitchesOn(states[i], actions[i], r) && Untoggled(states, actions, i, j, r)
    ensures ShutSince(states[i + 1], states[j], r)
  {
    if j == i + 1 {
      SwitchedOn(states, actions, i, r);
    } else {
      MaintenanceHolds(states, actions, i, j - 1, r);
      ShutOneMore(states, actions, j - 1, states[i + 1], r);
    }
  }
}

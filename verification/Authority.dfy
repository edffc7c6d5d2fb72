/** Who can make a booking a paid one, over whole runs. */
module Authority {
  import opened Store
  import opened Bookings
  import opened Scheduler
  import opened Maintenance
  import opened Invariants
  import opened BookingSafety
  import opened BookingLaws
  import opened MaintenanceLaws
  import opened BookingFacts
  import opened Engine

  /** Confirmed, or gone on from there. */
  predicate PaidFor(status: Status)
  {
    status == Confirmed || status == CheckedIn || status == Completed
  }

  ghost predicate HasPaid(s: State, id: BookingId)
  {
    id in s.bookings && PaidFor(s.bookings[id].status)
  }

  /** An organization admin creates it or confirms it, or it is created on a resource that confirms automatically. */
  ghost predicate Authorizes(s: State, a: Action, id: BookingId)
  {
    match a
    case CreateBooking(q) =>
      q.id == id && Create(s, q).Done? && (q.actor.isOrgAdmin || s.resources[q.resource].autoConfirm)
    case MoveBooking(actor, moved, to) =>
      moved == id && to == Confirmed && actor.isOrgAdmin && id in s.bookings && s.bookings[id].status == Pending
    case _ => false
  }

  lemma MoveAuthorizes(s: State, actor: Actor, moved: BookingId, to: Status, id: BookingId)
    requires Inv(s) && SetStatus(s, actor, moved, to).Done? && SafeMove(s.bookings[moved].status, to)
    ensures HasPaid(SetStatus(s, actor, moved, to).next, id) && !HasPaid(s, id)
       <==> Authorizes(s, MoveBooking(actor, moved, to), id)
  {
    MovedExact(s, actor, moved, to);
    MoveAcceptedExact(s, actor, moved, to);
  }

  /** The sweeps make nobody pay. */
  lemma SweepsAuthorizeNothing(s: State, a: Action, t: State, id: BookingId)
    requires Step(s, a, t) && (a.AutoCancel? || a.AutoCheckIn? || a.AutoComplete?)
    ensures HasPaid(t, id) ==> HasPaid(s, id)
  {
    match a
    case AutoCancel => CancelSweepExact(s);
    case AutoCheckIn => CheckInSweepExact(s, t);
    case AutoComplete => CompleteSweepExact(s);
  }

  lemma ToggleAuthorizesNothing(s: State, r: ResourceId, orgActive: bool, id: BookingId)
    requires Toggle(s, r, orgActive).Done?
    ensures HasPaid(Toggle(s, r, orgActive).next, id) ==> HasPaid(s, id)
  {
    ToggledExact(s, r, orgActive);
  }

  lemma OthersAuthorizeNothing(s: State, a: Action, t: State, id: BookingId)
    requires Step(s, a, t)
    requires a.AllocateCredits? || a.AllocateToMany? || a.RevokeCredits? || a.EditResource? || a.Wait?
    ensures HasPaid(t, id) ==> HasPaid(s, id)
  {
  }

  /** A booking becomes a paid one in exactly the steps that an admin or an auto-confirming resource authorizes. */
  lemma NewlyPaidExact(s: State, a: Action, t: State, id: BookingId)
    requires Inv(s) && Step(s, a, t) && Disciplined(s, a)
    ensures HasPaid(t, id) && !HasPaid(s, id) <==> Authorizes(s, a, id)
  {
    match a
    case CreateBooking(q) => if Create(s, q).Done? { CreatedExact(s, q); }
    case RescheduleBooking(q) => if Reschedule(s, q).Done? { RescheduledExact(s, q); }
    case MoveBooking(actor, moved, to) =>
      if SetStatus(s, actor, moved, to).Done? {
        MoveAuthorizes(s, actor, moved, to, id);
      } else if moved in s.bookings && s.bookings[moved].status == Pending && to == Confirmed && actor.isOrgAdmin {
        ConfirmIsNeverRefused(s, actor, moved);
      }
    case AutoCancel => SweepsAuthorizeNothing(s, a, t, id);
    case AutoCheckIn => SweepsAuthorizeNothing(s, a, t, id);
    case AutoComplete => SweepsAuthorizeNothing(s, a, t, id);
    case ToggleMaintenance(r, active) =>
      if Toggle(s, r, active).Done? { ToggleAuthorizesNothing(s, r, active, id); }
    case _ => OthersAuthorizeNothing(s, a, t, id);
  }

  /** Some step before n authorizes the booking. */
  ghost predicate AuthorizedBefore(states: seq<State>, actions: seq<Action>, id: BookingId, n: nat)
    requires n <= |actions| && n <= |states|
  {
    exists k :: 0 <= k < n && Authorizes(states[k], actions[k], id)
  }

  /** Over every run from an organization without bookings nobody ever pays for a booking that no admin created or
      confirmed, and that was not created on a resource that confirms automatically. */
  lemma {:induction false} NobodyPaysUnasked(states: seq<State>, actions: seq<Action>, id: BookingId, n: nat)
    requires IsRun(states, actions) && n <= |actions| && Initial(states[0])
    ensures HasPaid(states[n], id) ==> AuthorizedBefore(states, actions, id, n)
  {
    if n > 0 {
      NobodyPaysUnasked(states, actions, id, n - 1);
      ReachableIsSafe(states, actions, n - 1);
      StepOfRun(states, actions, n - 1);
      NewlyPaidExact(states[n - 1], actions[n - 1], states[n], id);
      if AuthorizedBefore(states, actions, id, n - 1) {
        var k :| 0 <= k < n - 1 && Authorizes(states[k], actions[k], id);
        assert 0 <= k < n;
      }
    }
  }
}

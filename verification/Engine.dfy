/** Every run of the booking engine. */
module Engine {
  import opened Options
  import opened Store
  import opened Bookings
  import opened Scheduler
  import opened Maintenance
  import opened StaffCredits
  import opened Invariants
  import opened BookingSafety
  import opened SweepSafety

  datatype Action =
    | CreateBooking(create: CreateRequest)
    | RescheduleBooking(reschedule: RescheduleRequest)
    | MoveBooking(actor: Actor, id: BookingId, to: Status)
    | AutoCancel
    | AutoCheckIn
    | AutoComplete
    | ToggleMaintenance(resource: ResourceId, orgActive: bool)
    | AllocateCredits(grant: Grant)
    | AllocateToMany(grants: seq<Grant>)
    | RevokeCredits(grant: Grant)
    | EditResource(edited: ResourceId, rate: real, autoConfirm: bool, buffer: nat, rules: Option<Rules>)
    | Wait(elapsed: nat)

  /** A refused call leaves the state as it was. */
  function Resulting(s: State, o: Outcome): State
  {
    if o.Done? then o.next else s
  }

  /** Upserting rules or editing a resource; the maintenance flag is left to the toggle. */
  function Edit(s: State, r: ResourceId, rate: real, autoConfirm: bool, buffer: nat, rules: Option<Rules>): Outcome
  {
    if r !in s.resources || rate < 0.0 then Refused(NotFound)
    else
      var edited := s.resources[r].(rate := rate, autoConfirm := autoConfirm, buffer := buffer, rules := rules);
      Done(s.(resources := s.resources[r := edited]))
  }

  /** An accepted edit replaces rate, confirmation and rules of one resource, and leaves maintenance and occupancy. */
  lemma EditedExact(s: State, r: ResourceId, rate: real, autoConfirm: bool, buffer: nat, rules: Option<Rules>)
    ensures Edit(s, r, rate, autoConfirm, buffer, rules).Done? <==> r in s.resources && rate >= 0.0
    ensures Edit(s, r, rate, autoConfirm, buffer, rules).Done? ==>
      var t, old' := Edit(s, r, rate, autoConfirm, buffer, rules).next, s.resources[r];
      && t == s.(resources := t.resources) && t.resources.Keys == s.resources.Keys
      && t.resources[r] == Resource(rate, buffer, autoConfirm, old'.maintenance, old'.occupied, old'.current, rules)
      && forall x :: x in s.resources && x != r ==> t.resources[x] == s.resources[x]
  {
  }

  ghost predicate Step(s: State, a: Action, t: State)
  {
    match a
    case CreateBooking(q) => t == Resulting(s, Create(s, q))
    case RescheduleBooking(q) => t == Resulting(s, Reschedule(s, q))
    case MoveBooking(actor, id, to) => t == Resulting(s, SetStatus(s, actor, id, to))
    case AutoCancel => t == CancelSweep(s)
    case AutoCheckIn => CheckInSweep(s, t)
    case AutoComplete => t == CompleteSweep(s)
    case ToggleMaintenance(r, active) => t == Resulting(s, Toggle(s, r, active))
    case AllocateCredits(g) => t == Resulting(s, Allocate(s, g))
    case AllocateToMany(gs) => t == Resulting(s, AllocateMany(s, gs))
    case RevokeCredits(g) => t == Resulting(s, Revoke(s, g))
    case EditResource(r, rate, auto, buffer, rules) => t == Resulting(s, Edit(s, r, rate, auto, buffer, rules))
    case Wait(elapsed) => t == s.(now := s.now + elapsed)
  }

  /** The one hypothesis on callers: manual status moves stay within the safe ones. */
  ghost predicate Disciplined(s: State, a: Action)
  {
    a.MoveBooking? && a.id in s.bookings ==> SafeMove(s.bookings[a.id].status, a.to)
  }

  ghost predicate Initial(s: State)
  {
    && s.bookings == map[] && s.charges == map[] && s.pool >= 0
    && (forall u :: u in s.credits ==> s.credits[u] >= 0)
    && (forall r :: r in s.resources ==>
          s.resources[r].rate >= 0.0 && !s.resources[r].occupied && s.resources[r].current == None)
  }

  lemma InitialInv(s: State)
    requires Initial(s)
    ensures Inv(s)
  {
    forall u | u in s.credits ensures PendingTotal(s.bookings, u) <= s.credits[u] {
      assert PendingCosts(s.bookings, u) == map[];
    }
    forall r | r in s.resources ensures HonestAt(s, r) && Apart(s.bookings, r, 0) {
    }
  }

  lemma EditKeepsInv(s: State, r: ResourceId, rate: real, autoConfirm: bool, buffer: nat, rules: Option<Rules>)
    requires Inv(s)
    ensures Inv(Resulting(s, Edit(s, r, rate, autoConfirm, buffer, rules)))
    ensures Worth(Resulting(s, Edit(s, r, rate, autoConfirm, buffer, rules))) == Worth(s)
  {
    var t := Resulting(s, Edit(s, r, rate, autoConfirm, buffer, rules));
    assert t.bookings == s.bookings && t.credits == s.credits && t.charges == s.charges && t.now == s.now;
    assert NoDoubleBooking(t) && Solvent(t) && ChargesSettled(t);
    forall x | x in t.resources ensures HonestAt(t, x) {
      assert HonestAt(s, x);
    }
  }

  lemma WaitKeepsInv(s: State, elapsed: nat)
    requires Inv(s)
    ensures Inv(s.(now := s.now + elapsed))
  {
    var t := s.(now := s.now + elapsed);
    UnblockingKeepsMost(s, t);
    forall x | x in t.resources ensures HonestAt(t, x) {
      assert HonestAt(s, x);
    }
    forall id | id in t.bookings && Suspended(t, t.bookings[id]) ensures t.bookings[id].end < t.now {
      assert Suspended(s, s.bookings[id]);
    }
  }

  /** Every step keeps all invariants, and neither makes nor loses a credit. */
  lemma StepKeepsInv(s: State, a: Action, t: State)
    requires Inv(s) && Step(s, a, t) && Disciplined(s, a)
    ensures Inv(t) && Worth(t) == Worth(s)
  {
    match a
    case CreateBooking(q) => if Create(s, q).Done? { CreateKeepsInv(s, q); }
    case RescheduleBooking(q) => if Reschedule(s, q).Done? { RescheduleKeepsInv(s, q); }
    case MoveBooking(actor, id, to) => if SetStatus(s, actor, id, to).Done? { SetStatusKeepsInv(s, actor, id, to); }
    case AutoCancel => CancelSweepKeepsInv(s);
    case AutoCheckIn => CheckInSweepKeepsInv(s, t);
    case AutoComplete => CompleteSweepKeepsInv(s);
    case ToggleMaintenance(r, active) => if Toggle(s, r, active).Done? { ToggleKeepsInv(s, r, active); }
    case AllocateCredits(g) => if Allocate(s, g).Done? { AllocateKeepsInv(s, g); }
    case AllocateToMany(gs) => if AllocateMany(s, gs).Done? { AllocateManyKeepsInv(s, gs); }
    case RevokeCredits(g) => if Revoke(s, g).Done? { RevokeKeepsInv(s, g); }
    case EditResource(r, rate, auto, buffer, rules) => EditKeepsInv(s, r, rate, auto, buffer, rules);
    case Wait(elapsed) => WaitKeepsInv(s, elapsed);
  }

  /** states[i] --actions[i]--> states[i + 1] */
  ghost predicate IsRun(states: seq<State>, actions: seq<Action>)
  {
    && |states| == |actions| + 1
    && forall i :: 0 <= i < |actions| ==>
         Step(states[i], actions[i], states[i + 1]) && Disciplined(states[i], actions[i])
  }

  lemma StepOfRun(states: seq<State>, actions: seq<Action>, i: nat)
    requires IsRun(states, actions) && i < |actions|
    ensures Step(states[i], actions[i], states[i + 1]) && Disciplined(states[i], actions[i])
  {
  }

  /** In every state of every run: solvency, no double booking, honest occupancy, quiet maintenance,
      settled charges; and the organization's credits are conserved. */
  lemma {:induction false} EveryRunIsSafe(states: seq<State>, actions: seq<Action>, i: nat)
    requires IsRun(states, actions) && i < |states|
    requires Inv(states[0])
    ensures Inv(states[i]) && Worth(states[i]) == Worth(states[0])
  {
    if i > 0 {
      EveryRunIsSafe(states, actions, i - 1);
      assert Step(states[i - 1], actions[i - 1], states[i - 1 + 1]);
      StepKeepsInv(states[i - 1], actions[i - 1], states[i]);
    }
  }

  /** In particular every state that a run reaches from an organization without bookings. */
  lemma ReachableIsSafe(states: seq<State>, actions: seq<Action>, i: nat)
    requires IsRun(states, actions) && i < |states| && Initial(states[0])
    ensures Inv(states[i]) && Worth(states[i]) == Worth(states[0])
  {
    InitialInv(states[0]);
    EveryRunIsSafe(states, actions, i);
  }

  // ---- the buffer ----

  lemma CreateKeepsGap(s: State, q: CreateRequest, r: ResourceId, gap: nat)
    requires Create(s, q).Done? && r in s.resources && gap <= s.resources[r].buffer && Apart(s.bookings, r, gap)
    ensures Apart(Create(s, q).next.bookings, r, gap)
  {
    var b := Create(s, q).next.bookings[q.id];
    assert s.bookings - {q.id} == s.bookings;
    if b.resource == r { FreeSlotIsClear(s.bookings, q.id, b, s.resources[r].buffer, gap); }
    ApartAfterPut(s.bookings, q.id, b, r, gap);
  }

  lemma RescheduleKeepsGap(s: State, q: RescheduleRequest, r: ResourceId, gap: nat)
    requires Reschedule(s, q).Done? && r in s.resources && gap <= s.resources[r].buffer && Apart(s.bookings, r, gap)
    ensures Apart(Reschedule(s, q).next.bookings, r, gap)
  {
    var b := Reschedule(s, q).next.bookings[q.id];
    if b.resource == r { FreeSlotIsClear(s.bookings, q.id, b, s.resources[r].buffer, gap); }
    ApartAfterPut(s.bookings, q.id, b, r, gap);
  }

  lemma MoveKeepsGap(s: State, actor: Actor, id: BookingId, to: Status, r: ResourceId, gap: nat)
    requires SetStatus(s, actor, id, to).Done? && SafeMove(s.bookings[id].status, to) && Apart(s.bookings, r, gap)
    ensures Apart(SetStatus(s, actor, id, to).next.bookings, r, gap)
  {
    var b := s.bookings[id].(status := to);
    assert SetStatus(s, actor, id, to).next.bookings == s.bookings[id := b];
    ApartAfterPut(s.bookings, id, b, r, gap);
  }

  /** While the resource's buffer stays at least `gap`, its blocking bookings stay that far apart. */
  lemma StepKeepsGap(s: State, a: Action, t: State, r: ResourceId, gap: nat)
    requires Inv(s) && Step(s, a, t) && Disciplined(s, a)
    requires r in s.resources && gap <= s.resources[r].buffer && Apart(s.bookings, r, gap)
    ensures r in t.resources && Apart(t.bookings, r, gap)
  {
    match a
    case CreateBooking(q) => if Create(s, q).Done? { CreateKeepsGap(s, q, r, gap); }
    case RescheduleBooking(q) => if Reschedule(s, q).Done? { RescheduleKeepsGap(s, q, r, gap); }
    case MoveBooking(_, _, _) => MoveStepKeepsGap(s, a, t, r, gap);
    case _ => BatchKeepsGap(s, a, t, r, gap);
  }

  lemma MoveStepKeepsGap(s: State, a: Action, t: State, r: ResourceId, gap: nat)
    requires Inv(s) && Step(s, a, t) && Disciplined(s, a) && a.MoveBooking?
    requires r in s.resources && Apart(s.bookings, r, gap)
    ensures r in t.resources && Apart(t.bookings, r, gap)
  {
    if SetStatus(s, a.actor, a.id, a.to).Done? { MoveKeepsGap(s, a.actor, a.id, a.to, r, gap); }
  }

  /** The steps that book no time only settle bookings, or leave them alone. */
  lemma BatchKeepsGap(s: State, a: Action, t: State, r: ResourceId, gap: nat)
    requires Inv(s) && Step(s, a, t) && !a.CreateBooking? && !a.RescheduleBooking? && !a.MoveBooking?
    requires r in s.resources && Apart(s.bookings, r, gap)
    ensures r in t.resources && Apart(t.bookings, r, gap)
  {
    match a
    case AutoCancel => CancelSweepKeepsInv(s); UnblockingKeepsApart(s.bookings, t.bookings, r, gap);
    case AutoCheckIn => CheckInSweepKeepsInv(s, t); UnblockingKeepsApart(s.bookings, t.bookings, r, gap);
    case AutoComplete => CompleteSweepKeepsInv(s); UnblockingKeepsApart(s.bookings, t.bookings, r, gap);
    case ToggleMaintenance(x, active) =>
      if Toggle(s, x, active).Done? {
        ToggleKeepsInv(s, x, active);
        UnblockingKeepsApart(s.bookings, t.bookings, r, gap);
      }
    case _ =>
  }

  /** No double booking, with the buffer: over a run during which the rules never drop a resource's buffer below
      `gap`, its blocking bookings stay at least `gap` apart. Gap 0 needs no hypothesis on the rules. */
  lemma {:induction false} BufferIsKept(states: seq<State>, actions: seq<Action>, i: nat, r: ResourceId, gap: nat)
    requires IsRun(states, actions) && i < |states|
    requires Inv(states[0]) && r in states[0].resources && Apart(states[0].bookings, r, gap)
    requires forall k :: 0 <= k < i && r in states[k].resources ==> gap <= states[k].resources[r].buffer
    ensures r in states[i].resources && Apart(states[i].bookings, r, gap)
  {
    if i > 0 {
      BufferIsKept(states, actions, i - 1, r, gap);
      EveryRunIsSafe(states, actions, i - 1);
      assert Step(states[i - 1], actions[i - 1], states[i - 1 + 1]);
      StepKeepsGap(states[i - 1], actions[i - 1], states[i], r, gap);
    }
  }
}

/** Both machines at once: one organization's bookings and everybody's subscriptions share that organization's pool. */
module Platform {
  import opened Store
  import opened Invariants
  import opened Plans
  import opened SubscriptionSafety
  import Engine
  import SweepSafety

  type Books = Subscriptions.Books
  type OrgId = Subscriptions.OrgId

  datatype Platform = Platform(desk: State, books: Books)

  datatype Event = AtDesk(act: Engine.Action) | Billing(change: Action)

  /** The pool and the clock are stored once. */
  predicate Joined(w: Platform, o: OrgId)
  {
    o in w.books.orgs && w.books.orgs[o].pool == w.desk.pool && w.books.now == w.desk.now
  }

  function Shared(books: Books, o: OrgId, desk: State): Books
    requires o in books.orgs
  {
    books.(now := desk.now, orgs := books.orgs[o := books.orgs[o].(pool := desk.pool)])
  }

  ghost predicate Step(w: Platform, o: OrgId, e: Event, t: Platform)
    requires o in w.books.orgs
  {
    match e
    case AtDesk(a) => Engine.Step(w.desk, a, t.desk) && t.books == Shared(w.books, o, t.desk)
    case Billing(a) =>
      && t.books == Next(w.books, a) && o in t.books.orgs
      && t.desk == w.desk.(now := t.books.now, pool := t.books.orgs[o].pool)
  }

  /** Allocating and revoking are the engine's steps; manual status moves are safe ones. */
  ghost predicate Disciplined(w: Platform, o: OrgId, e: Event)
  {
    match e
    case AtDesk(a) => Engine.Disciplined(w.desk, a)
    case Billing(a) => a.TransferCredits? ==> a.id != o
  }

  ghost predicate Safe(w: Platform, o: OrgId)
  {
    Inv(w.desk) && Sound(w.books) && Joined(w, o)
  }

  // ---- the ledger ----

  /** All credits of the organization: pool, members, paid into bookings, and frozen. */
  function Credits(w: Platform, o: OrgId): int
    requires o in w.books.orgs
  {
    Worth(w.desk) + w.books.orgs[o].frozen
  }

  /** Credits granted with plans and with trials so far. */
  function Granted(books: Books, o: OrgId): int
    requires o in books.tallies
  {
    books.tallies[o].planCredits + InitialCredits(Trial) * books.tallies[o].trials
  }

  /** What a step adds or takes otherwise: a top-up, and filling or cutting the pool to the free allowance. */
  function Adjusted(books: Books, e: Event, o: OrgId): int
    requires Subscriptions.Known(books, o)
  {
    match e
    case AtDesk(_) => 0
    case Billing(a) =>
      var pool := books.orgs[o].pool;
      if a.TopUpCredits? && a.id == o && Subscriptions.TopUpOrganization(books, o, a.topUp).Done? then a.topUp.credits
      else if a.ExpireSubscriptions? && Subscriptions.Due(books.subs[o], books.now) && pool < InitialCredits(Free) then
        InitialCredits(Free) - pool
      else if a.ResetFreeCredits? && books.subs[o].plan == Free && books.subs[o].active then InitialCredits(Free) - pool
      else 0
  }

  // ---- steps ----

  lemma SharingKeepsSound(books: Books, o: OrgId, desk: State)
    requires Sound(books) && o in books.orgs && desk.pool >= 0
    ensures Sound(Shared(books, o, desk))
  {
    var t := Shared(books, o, desk);
    forall p | p in t.orgs ensures GoodAt(t, p) {
      assert GoodAt(books, p);
    }
  }

  lemma BookingIsSafe(w: Platform, o: OrgId, a: Engine.Action, t: Platform)
    requires Safe(w, o) && Step(w, o, AtDesk(a), t) && Engine.Disciplined(w.desk, a)
    ensures Safe(t, o) && Credits(t, o) == Credits(w, o) && Granted(t.books, o) == Granted(w.books, o)
  {
    Engine.StepKeepsInv(w.desk, a, t.desk);
    SharingKeepsSound(w.books, o, t.desk);
    assert GoodAt(w.books, o);
  }

  lemma ClockMovesOn(b: Books, a: Action)
    ensures Next(b, a).now >= b.now
  {
  }

  /** Bookings stand whatever billing does to the pool and however time passes. */
  lemma DeskStands(s: State, now: int, pool: int)
    requires Inv(s) && now >= s.now && pool >= 0
    ensures Inv(s.(now := now, pool := pool)) && Worth(s.(now := now, pool := pool)) == Worth(s) - s.pool + pool
  {
    var later := s.(now := s.now + (now - s.now));
    Engine.WaitKeepsInv(s, now - s.now);
    SweepSafety.TransferKeepsInv(later, later.(pool := pool));
  }

  lemma BillingIsSafe(w: Platform, o: OrgId, a: Action, t: Platform)
    requires Safe(w, o) && Step(w, o, Billing(a), t)
    ensures Safe(t, o) && Worth(t.desk) == Worth(w.desk) - w.desk.pool + t.desk.pool
  {
    NextKeepsSound(w.books, a);
    assert GoodAt(t.books, o);
    ClockMovesOn(w.books, a);
    DeskStands(w.desk, t.books.now, t.books.orgs[o].pool);
  }

  /** Pool and frozen credits change by what is granted and adjusted. */
  predicate Balances(b: Books, t: Books, o: OrgId, adjusted: int)
  {
    && Subscriptions.Known(b, o) && Subscriptions.Known(t, o)
    && t.orgs[o].pool + t.orgs[o].frozen - b.orgs[o].pool - b.orgs[o].frozen == Granted(t, o) - Granted(b, o) + adjusted
  }

  lemma DeliveryLedger(b: Books, d: Subscriptions.Delivery, o: OrgId)
    requires Subscriptions.Known(b, o)
    ensures Balances(b, Resulting(b, Subscriptions.Deliver(b, d)), o, 0)
  {
  }

  lemma CustomerLedger(b: Books, p: OrgId, o: OrgId)
    requires Subscriptions.Known(b, o)
    ensures Balances(b, Resulting(b, Subscriptions.Register(b, p)), o, 0)
    ensures Balances(b, Resulting(b, Subscriptions.ActivateTrial(b, p)), o, 0)
    ensures Balances(b, Resulting(b, Subscriptions.Remind(b, p)), o, 0)
  {
  }

  lemma TopUpLedger(b: Books, a: Action, o: OrgId)
    requires Subscriptions.Known(b, o) && a.TopUpCredits?
    ensures Balances(b, Next(b, a), o, Adjusted(b, Billing(a), o))
  {
  }

  lemma BillingLedger(b: Books, a: Action, o: OrgId)
    requires Subscriptions.Known(b, o) && (a.TransferCredits? ==> a.id != o)
    ensures Balances(b, Next(b, a), o, Adjusted(b, Billing(a), o))
  {
    match a
    case DeliverEvent(d) => DeliveryLedger(b, d, o);
    case RegisterOrganization(p) => CustomerLedger(b, p, o);
    case ActivateTrialOf(p) => CustomerLedger(b, p, o);
    case SendReminder(p) => CustomerLedger(b, p, o);
    case TopUpCredits(_, _) => TopUpLedger(b, a, o);
    case _ =>
  }

  lemma StepIsSafe(w: Platform, o: OrgId, e: Event, t: Platform)
    requires Safe(w, o) && Step(w, o, e, t) && Disciplined(w, o, e)
    ensures Safe(t, o) && GoodAt(w.books, o) && GoodAt(t.books, o)
    ensures Credits(t, o) - Credits(w, o) == Granted(t.books, o) - Granted(w.books, o) + Adjusted(w.books, e, o)
  {
    assert GoodAt(w.books, o);
    match e
    case AtDesk(a) => BookingIsSafe(w, o, a, t);
    case Billing(a) =>
      BillingIsSafe(w, o, a, t);
      BillingLedger(w.books, a, o);
  }

  // ---- runs ----

  ghost predicate IsRun(states: seq<Platform>, events: seq<Event>, o: OrgId)
  {
    && |states| == |events| + 1
    && forall i :: 0 <= i < |events| ==>
         && o in states[i].books.orgs
         && Step(states[i], o, events[i], states[i + 1]) && Disciplined(states[i], o, events[i])
  }

  /** Adjustments of the first n events. */
  function TotalAdjusted(states: seq<Platform>, events: seq<Event>, o: OrgId, n: nat): int
    requires n <= |events| && n <= |states|
  {
    if n == 0 then 0
    else
      TotalAdjusted(states, events, o, n - 1) +
      if Subscriptions.Known(states[n - 1].books, o) then Adjusted(states[n - 1].books, events[n - 1], o) else 0
  }

  /** Over every run of bookings, sweeps, payments, trials, expiries, resets and administrators together: every booking
      invariant and every subscription invariant holds throughout, and the organization's credits are those it
      started with, plus plan and trial credits granted, plus top-ups and what the free allowance added or took. */
  lemma {:induction false} EveryRunIsSafe(states: seq<Platform>, events: seq<Event>, o: OrgId, i: nat)
    requires IsRun(states, events, o) && i < |states| && Safe(states[0], o)
    ensures Safe(states[i], o) && GoodAt(states[0].books, o) && GoodAt(states[i].books, o)
    ensures Credits(states[i], o) - Credits(states[0], o)
         == Granted(states[i].books, o) - Granted(states[0].books, o) + TotalAdjusted(states, events, o, i)
  {
    assert GoodAt(states[0].books, o);
    if i > 0 {
      EveryRunIsSafe(states, events, o, i - 1);
      assert Step(states[i - 1], o, events[i - 1], states[i - 1 + 1]);
      StepIsSafe(states[i - 1], o, events[i - 1], states[i]);
    }
  }

  /** In particular over every run from an organization without bookings and books reached from empty tables. */
  lemma ReachableIsSafe(
    states: seq<Platform>, events: seq<Event>, o: OrgId, i: nat, start: int, registered: seq<Action>)
    requires IsRun(states, events, o) && i < |states| && Joined(states[0], o) && Engine.Initial(states[0].desk)
    requires states[0].books == Run(Subscriptions.Books(start, map[], map[], map[]), registered)
    ensures Safe(states[i], o) && GoodAt(states[0].books, o) && GoodAt(states[i].books, o)
    ensures Credits(states[i], o) - Credits(states[0], o)
         == Granted(states[i].books, o) - Granted(states[0].books, o) + TotalAdjusted(states, events, o, i)
  {
    Engine.InitialInv(states[0].desk);
    ReachableIsSound(start, registered);
    EveryRunIsSafe(states, events, o, i);
  }
}

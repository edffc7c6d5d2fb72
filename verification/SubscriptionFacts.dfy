/** What runs of the subscription machine guarantee about payments, trials, frozen credits and paid time. */
module SubscriptionFacts {
  import opened Calendar
  import opened Options
  import opened Plans
  import opened Subscriptions
  import opened SubscriptionSafety
  import Buckets

  // ---- what never goes back ----

  /** An organization stays, its trial stays used, its trials and granted sessions only grow. */
  predicate Grows(b: Books, t: Books, o: OrgId)
    requires Known(b, o)
  {
    && Known(t, o)
    && (b.orgs[o].hasUsedTrial ==> t.orgs[o].hasUsedTrial)
    && b.tallies[o].granted <= t.tallies[o].granted
    && b.tallies[o].trials <= t.tallies[o].trials
    && (b.orgs[o].hasUsedTrial ==> t.tallies[o].trials == b.tallies[o].trials)
  }

  lemma NextGrows(b: Books, a: Action, o: OrgId)
    requires Known(b, o)
    ensures Grows(b, Next(b, a), o)
  {
  }

  lemma {:induction false} RunGrows(b: Books, actions: seq<Action>, o: OrgId)
    requires Known(b, o)
    ensures Grows(b, Run(b, actions), o)
  {
    if actions != [] {
      RunGrows(b, actions[..|actions| - 1], o);
      NextGrows(Run(b, actions[..|actions| - 1]), actions[|actions| - 1], o);
    }
  }

  // ---- one trial ----

  /** A trial starts exactly when it is allowed and unused; then no trial and no payment came before, and it lasts
      seven days, whatever end date an administrator may have set. */
  lemma TrialExact(b: Books, o: OrgId)
    requires Sound(b)
    ensures ActivateTrial(b, o).Done? <==> o in b.orgs && b.orgs[o].trialAllowed && !b.orgs[o].hasUsedTrial
    ensures ActivateTrial(b, o).Done? ==>
      var t := ActivateTrial(b, o).next;
      && b.tallies[o].trials == 0 && b.tallies[o].granted == []
      && t.tallies[o].trials == 1 && t.orgs[o].pool == b.orgs[o].pool + InitialCredits(Trial)
      && t.subs[o].end == Some(b.now + FREE_TRIAL_DAYS * DAY) && t.subs[o].plan == t.orgs[o].plan == Pro
  {
    if o in b.orgs {
      assert GoodAt(b, o);
    }
  }

  /** After a trial, a payment, or an administrator's trial end date, no run ever starts a trial again. */
  lemma TrialAtMostOnce(b: Books, o: OrgId, actions: seq<Action>)
    requires Sound(b) && o in b.orgs
    requires b.tallies[o].trials > 0 || b.tallies[o].granted != [] || b.orgs[o].trialEndsAt.Some?
    ensures ActivateTrial(Run(b, actions), o) == Refused
    ensures Known(Run(b, actions), o) && Run(b, actions).tallies[o].trials == b.tallies[o].trials <= 1
  {
    assert GoodAt(b, o);
    RunGrows(b, actions, o);
  }

  // ---- payments ----

  /** A settled delivery to a known organization grants the session unless it is the one granted last. */
  lemma DeliveryExact(b: Books, d: Delivery)
    requires Sound(b) && IsPaid(d) && d.session.org in b.orgs
    ensures var granted, x := b.tallies[d.session.org].granted, d.session;
      && Deliver(b, d).Done?
      && (Deliver(b, d).next == b <==> granted != [] && Last(granted) == x)
      && (Deliver(b, d).next != b ==>
            && Known(Deliver(b, d).next, x.org)
            && Deliver(b, d).next.tallies[x.org].granted == granted + [x]
            && Deliver(b, d).next.orgs[x.org].pool
               == b.orgs[x.org].pool + InitialCredits(x.plan) + b.orgs[x.org].frozen)
  {
    var x := d.session;
    assert GoodAt(b, x.org);
    ProcessedExact(b, x);
    if !AlreadyProcessed(b, x) {
      var granted := Deliver(b, d).next.tallies[x.org].granted;
      assert granted == b.tallies[x.org].granted + [x];
      assert |granted| != |b.tallies[x.org].granted|;
    }
  }

  /** The settled session of an organization that an action delivers, if any. */
  function PaidBy(o: OrgId, a: Action): (xs: seq<Session>)
    ensures xs != [] ==> a.DeliverEvent? && xs == [a.delivery.session]
  {
    if a.DeliverEvent? && IsPaid(a.delivery) && a.delivery.session.org == o then [a.delivery.session] else []
  }

  /** The settled sessions of an organization in the order of their delivery, repeats included. */
  function Paid(o: OrgId, actions: seq<Action>): seq<Session>
  {
    if actions == [] then [] else Paid(o, actions[..|actions| - 1]) + PaidBy(o, actions[|actions| - 1])
  }

  /** Sessions with immediate repeats dropped, appended to those before. */
  function Squash(before: seq<Session>, xs: seq<Session>): seq<Session>
  {
    if xs == [] then before
    else
      var init := Squash(before, xs[..|xs| - 1]);
      if init != [] && Last(init) == Last(xs) then init else init + [Last(xs)]
  }

  lemma NothingGranted(b: Books, a: Action, o: OrgId)
    requires Known(b, o) && PaidBy(o, a) == []
    ensures Known(Next(b, a), o) && Next(b, a).tallies[o].granted == b.tallies[o].granted
  {
  }

  lemma NextGrants(b: Books, a: Action, o: OrgId)
    requires Sound(b) && o in b.orgs
    ensures Known(Next(b, a), o)
    ensures Next(b, a).tallies[o].granted == Squash(b.tallies[o].granted, PaidBy(o, a))
  {
    if PaidBy(o, a) == [] {
      NothingGranted(b, a, o);
    } else {
      DeliveryExact(b, a.delivery);
      SquashOne(b.tallies[o].granted, a.delivery.session);
    }
  }

  lemma SquashOne(before: seq<Session>, x: Session)
    ensures Squash(before, [x]) == if before != [] && Last(before) == x then before else before + [x]
  {
    assert [x][..0] == [];
  }

  lemma SquashOneMore(before: seq<Session>, xs: seq<Session>, ys: seq<Session>)
    requires |ys| <= 1
    ensures Squash(before, xs + ys) == Squash(Squash(before, xs), ys)
  {
    if ys == [] {
      assert xs + ys == xs;
    } else {
      assert (xs + ys)[..|xs|] == xs && ys[..0] == [];
    }
  }

  /** Over every run an organization is granted exactly its settled sessions with immediate repeats dropped,
      whatever else happens in between, and the plan credits are those of the granted sessions. */
  lemma {:induction false} GrantedOverRuns(b: Books, actions: seq<Action>, o: OrgId)
    requires Sound(b) && o in b.orgs
    ensures Known(Run(b, actions), o)
    ensures Run(b, actions).tallies[o].granted == Squash(b.tallies[o].granted, Paid(o, actions))
    ensures Run(b, actions).tallies[o].planCredits == CreditsOf(Squash(b.tallies[o].granted, Paid(o, actions)))
  {
    EveryRunIsSound(b, actions);
    if actions != [] {
      var init, a := actions[..|actions| - 1], actions[|actions| - 1];
      GrantedOverRuns(b, init, o);
      EveryRunIsSound(b, init);
      NextGrants(Run(b, init), a, o);
      SquashOneMore(b.tallies[o].granted, Paid(o, init), PaidBy(o, a));
    }
    RunGrows(b, actions, o);
    assert GoodAt(Run(b, actions), o);
  }

  /** Repeats of a session come before the next other session. */
  predicate Grouped(xs: seq<Session>)
  {
    forall i, j, k :: 0 <= i <= j <= k < |xs| && xs[i] == xs[k] ==> xs[j] == xs[i]
  }

  lemma {:induction false} SquashKeepsSessions(xs: seq<Session>)
    ensures forall x :: x in Squash([], xs) <==> x in xs
    ensures xs != [] ==> Squash([], xs) != [] && Last(Squash([], xs)) == Last(xs)
  {
    if xs != [] {
      SquashKeepsSessions(xs[..|xs| - 1]);
      assert xs == xs[..|xs| - 1] + [Last(xs)];
    }
  }

  lemma GroupedOneMore(xs: seq<Session>)
    requires |xs| >= 2
    ensures var init := xs[..|xs| - 1];
      Grouped(xs) <==> Grouped(init) && (Last(init) == Last(xs) || Last(xs) !in init)
  {
    var init, n := xs[..|xs| - 1], |xs| - 1;
    assert forall i :: 0 <= i < n ==> init[i] == xs[i];
    if Grouped(init) && (Last(init) == Last(xs) || Last(xs) !in init) {
      forall i, j, k | 0 <= i <= j <= k < |xs| && xs[i] == xs[k] ensures xs[j] == xs[i] {
        if k == n && j < n {
          assert init[i] in init && Last(init) == init[n - 1];
          assert init[j] == init[i];
        } else if k < n {
          assert init[j] == init[i];
        }
      }
    }
    if Grouped(xs) {
      forall i, j, k | 0 <= i <= j <= k < n && init[i] == init[k] ensures init[j] == init[i] {
        assert xs[j] == xs[i];
      }
      if Last(xs) in init {
        var i :| 0 <= i < n && init[i] == Last(xs);
        assert xs[n - 1] == xs[i];
      }
    }
  }

  lemma DistinctOneMore(xs: seq<Session>, x: Session)
    ensures Buckets.Distinct(xs + [x]) <==> Buckets.Distinct(xs) && x !in xs
  {
    var ys := xs + [x];
    if Buckets.Distinct(ys) {
      forall i, j | 0 <= i < j < |xs| ensures xs[i] != xs[j] { assert ys[i] != ys[j]; }
      forall i | 0 <= i < |xs| ensures xs[i] != x { assert ys[i] != ys[|xs|]; }
    }
  }

  lemma {:induction false} DistinctExact(xs: seq<Session>)
    ensures Buckets.Distinct(Squash([], xs)) <==> Grouped(xs)
  {
    if |xs| == 1 {
      assert xs[..0] == [];
      assert Squash([], xs) == [Last(xs)];
    } else if |xs| > 1 {
      var init := xs[..|xs| - 1];
      DistinctExact(init);
      SquashKeepsSessions(init);
      GroupedOneMore(xs);
      DistinctOneMore(Squash([], init), Last(xs));
    }
  }

  /** Exactly once: from registration on, every settled session is granted, and each of them only once exactly
      when repeats of a session arrive before the next other session of the organization. */
  lemma PaymentsExactlyOnce(b: Books, actions: seq<Action>, o: OrgId)
    requires Sound(b) && o in b.orgs && b.tallies[o].granted == []
    ensures Known(Run(b, actions), o)
    ensures forall x :: x in Run(b, actions).tallies[o].granted <==> x in Paid(o, actions)
    ensures Buckets.Distinct(Run(b, actions).tallies[o].granted) <==> Grouped(Paid(o, actions))
  {
    GrantedOverRuns(b, actions, o);
    SquashKeepsSessions(Paid(o, actions));
    DistinctExact(Paid(o, actions));
  }

  // ---- frozen credits ----

  function Max(a: int, b: int): int { if a > b then a else b }

  /** Expiry brings a due organization to the free plan and keeps every credit, in the pool or frozen. */
  lemma ExpiryExact(b: Books, o: OrgId)
    requires Sound(b) && o in b.orgs
    ensures var t := ExpirySweep(b);
      && Known(t, o)
      && (Due(b.subs[o], b.now) ==>
            && t.orgs[o].pool == InitialCredits(Free) && t.subs[o].plan == Free && t.subs[o].payment == PaymentCompleted
            && t.orgs[o].pool + t.orgs[o].frozen == Max(b.orgs[o].pool, InitialCredits(Free)) + b.orgs[o].frozen)
      && (!Due(b.subs[o], b.now) ==> t.orgs[o] == b.orgs[o] && t.subs[o] == b.subs[o])
  {
  }

  /** Sweeping again freezes nothing more. */
  lemma ExpiryIsIdempotent(b: Books)
    ensures ExpirySweep(ExpirySweep(b)) == ExpirySweep(b)
  {
    var t := ExpirySweep(b);
    assert DueIds(t) == {};
    assert ExpirySweep(t).orgs == t.orgs && ExpirySweep(t).subs == t.subs && ExpirySweep(t).tallies == t.tallies;
  }

  /** Renewing after expiry gives back every frozen credit on top of the plan's. */
  lemma RenewalRestores(b: Books, d: Delivery)
    requires Sound(b) && IsPaid(d) && d.session.org in b.orgs && Due(b.subs[d.session.org], b.now)
    requires b.subs[d.session.org].external != Some(d.session)
    ensures var o, t := d.session.org, Resulting(ExpirySweep(b), Deliver(ExpirySweep(b), d));
      && Known(t, o) && t.orgs[o].frozen == 0
      && t.orgs[o].pool == Max(b.orgs[o].pool, InitialCredits(Free)) + b.orgs[o].frozen + InitialCredits(d.session.plan)
  {
    var o, e := d.session.org, ExpirySweep(b);
    ExpiryKeepsSound(b);
    ExpiryExact(b, o);
    assert GoodAt(b, o) && GoodAt(e, o);
    DeliveryExact(e, d);
    assert Deliver(e, d).next != e;
  }

  /** Over every run the credits frozen since are the credits released since plus the change of what is frozen. */
  lemma FrozenIsConserved(b: Books, actions: seq<Action>, o: OrgId)
    requires Sound(b) && o in b.orgs
    ensures var t := Run(b, actions);
      && Known(t, o)
      && t.tallies[o].frozenIn - b.tallies[o].frozenIn
         == t.tallies[o].released - b.tallies[o].released + t.orgs[o].frozen - b.orgs[o].frozen
  {
    EveryRunIsSound(b, actions);
    RunGrows(b, actions, o);
    assert GoodAt(b, o) && GoodAt(Run(b, actions), o);
  }

  lemma NextKeepsFrozen(b: Books, a: Action, o: OrgId)
    requires Known(b, o) && PaidBy(o, a) == []
    ensures Known(Next(b, a), o) && Next(b, a).orgs[o].frozen >= b.orgs[o].frozen
  {
  }

  /** Only a payment takes credits out of the frozen ones: resets, top-ups, trials and transfers never do. */
  lemma {:induction false} OnlyPaymentsReleaseFrozen(b: Books, actions: seq<Action>, o: OrgId)
    requires Known(b, o) && Paid(o, actions) == []
    ensures Known(Run(b, actions), o) && Run(b, actions).orgs[o].frozen >= b.orgs[o].frozen
  {
    if actions != [] {
      var init, a := actions[..|actions| - 1], actions[|actions| - 1];
      OnlyPaymentsReleaseFrozen(b, init, o);
      NextKeepsFrozen(Run(b, init), a, o);
    }
  }

  // ---- administrators ----

  predicate Ended(sub: Subscription, now: int)
  {
    sub.end.None? || sub.end.value < now
  }

  /** A top-up is refused exactly for an ended subscription without a date, or for a date before the current end.
      It adds exactly its credits and never shortens a subscription, but it leaves one ended exactly when the
      given date is itself past. */
  lemma TopUpExact(b: Books, o: OrgId, data: TopUp)
    requires Sound(b) && o in b.orgs
    ensures var sub, outcome := b.subs[o], TopUpOrganization(b, o, data);
      && (outcome.Refused? <==>
            || (Ended(sub, b.now) && data.extendDate.None?)
            || (data.extendDate.Some? && data.extendDate.value < if sub.end.Some? then sub.end.value else b.now))
      && (outcome.Done? ==>
            var t := outcome.next;
            && Known(t, o)
            && t.orgs[o].pool == b.orgs[o].pool + data.credits && t.orgs[o].frozen == b.orgs[o].frozen
            && (sub.end.Some? ==> t.subs[o].end.Some? && t.subs[o].end.value >= sub.end.value)
            && (Ended(t.subs[o], t.now) <==> data.extendDate.Some? && data.extendDate.value < b.now)
            && forall p :: p in b.orgs && p != o ==> Known(t, p) && t.orgs[p] == b.orgs[p] && t.subs[p] == b.subs[p])
  {
    assert forall p :: p in b.orgs ==> GoodAt(b, p);
  }

  // ---- paid time ----

  predicate Running(sub: Subscription, now: int)
  {
    sub.end.Some? && sub.end.value > now
  }

  /** A payment renews the running plan; and no trial, administrator's date or expiry sets the end otherwise. */
  predicate LeavesEndToPayments(b: Books, a: Action, o: OrgId)
    requires Known(b, o)
  {
    && (PaidBy(o, a) != [] && !AlreadyProcessed(b, a.delivery.session) ==>
          a.delivery.session.plan == b.subs[o].plan && Running(b.subs[o], b.now))
    && (a == ActivateTrialOf(o) ==> ActivateTrial(b, o).Refused?)
    && (a.TopUpCredits? && a.id == o ==> a.topUp.extendDate.None? || TopUpOrganization(b, o, a.topUp).Refused?)
    && (a.UpdateByAdmin? && a.id == o ==> a.update.trialEndsAt.None?)
    && (a.ExpireSubscriptions? ==> !Due(b.subs[o], b.now))
  }

  /** Every action of the run does, in the state it meets. */
  predicate Renewing(b: Books, actions: seq<Action>, o: OrgId)
    requires Known(b, o)
  {
    actions == [] ||
    (var init := actions[..|actions| - 1];
     RunGrows(b, init, o);
     Renewing(b, init, o) && LeavesEndToPayments(Run(b, init), actions[|actions| - 1], o))
  }

  function MonthsOf(xs: seq<Session>): seq<nat>
  {
    seq(|xs|, i requires 0 <= i < |xs| => MonthsCount(xs[i]))
  }

  lemma RenewOnce(b: Books, a: Action, o: OrgId)
    requires Sound(b) && o in b.orgs && b.subs[o].end.Some? && LeavesEndToPayments(b, a, o)
    ensures Known(Next(b, a), o) && Next(b, a).subs[o].end.Some?
    ensures Next(b, a).tallies[o].granted == b.tallies[o].granted ==> Next(b, a).subs[o].end == b.subs[o].end
    ensures Next(b, a).tallies[o].granted != b.tallies[o].granted ==>
      && PaidBy(o, a) != []
      && Next(b, a).tallies[o].granted == b.tallies[o].granted + [a.delivery.session]
      && Next(b, a).subs[o].end.value == AddMonths(b.subs[o].end.value, MonthsCount(a.delivery.session))
  {
    NextGrows(b, a, o);
    if PaidBy(o, a) != [] {
      DeliveryExact(b, a.delivery);
    } else {
      NothingGranted(b, a, o);
      EndStays(b, a, o);
    }
  }

  lemma EndStays(b: Books, a: Action, o: OrgId)
    requires Known(b, o) && PaidBy(o, a) == [] && b.subs[o].end.Some? && LeavesEndToPayments(b, a, o)
    ensures Known(Next(b, a), o) && Next(b, a).subs[o].end == b.subs[o].end
  {
  }

  lemma RenewedOneMore(end: int, before: seq<Session>, x: Session, n: nat)
    requires n <= |before|
    ensures Renewed(end, MonthsOf((before + [x])[n..]))
         == AddMonths(Renewed(end, MonthsOf(before[n..])), MonthsCount(x))
  {
    assert (before + [x])[n..] == before[n..] + [x];
    var months := MonthsOf((before + [x])[n..]);
    assert months[..|months| - 1] == MonthsOf(before[n..]);
  }

  /** The granted sessions of t that b has not. */
  function NewlyGranted(b: Books, t: Books, o: OrgId): seq<Session>
    requires Known(b, o) && Known(t, o)
  {
    var before, after := b.tallies[o].granted, t.tallies[o].granted;
    if |before| <= |after| then after[|before|..] else []
  }

  /** The subscription in t ends where the newly granted sessions, one after the other, extend the one in b to. */
  predicate ExtendedByGrants(b: Books, t: Books, o: OrgId)
  {
    && Known(b, o) && Known(t, o) && b.tallies[o].granted <= t.tallies[o].granted
    && b.subs[o].end.Some? && t.subs[o].end.Some?
    && t.subs[o].end.value == Renewed(b.subs[o].end.value, MonthsOf(NewlyGranted(b, t, o)))
  }

  lemma ExtendOnce(b: Books, t: Books, a: Action, o: OrgId)
    requires Sound(t) && ExtendedByGrants(b, t, o) && LeavesEndToPayments(t, a, o)
    ensures ExtendedByGrants(b, Next(t, a), o)
  {
    RenewOnce(t, a, o);
    if Next(t, a).tallies[o].granted != t.tallies[o].granted {
      RenewedOneMore(b.subs[o].end.value, t.tallies[o].granted, a.delivery.session, |b.tallies[o].granted|);
    }
  }

  /** Over every run in which payments renew the running plan, and nothing else sets the end, the end moves on by
      exactly the paid months, one purchase after the other, whatever sweeps, resets, top-ups, transfers and other
      organizations do in between. */
  lemma {:induction false} RenewalsAddUp(b: Books, actions: seq<Action>, o: OrgId)
    requires Sound(b) && o in b.orgs && b.subs[o].end.Some? && Renewing(b, actions, o)
    ensures ExtendedByGrants(b, Run(b, actions), o)
  {
    if actions == [] {
      assert MonthsOf(NewlyGranted(b, b, o)) == [];
    } else {
      var init := actions[..|actions| - 1];
      RenewalsAddUp(b, init, o);
      EveryRunIsSound(b, init);
      ExtendOnce(b, Run(b, init), actions[|actions| - 1], o);
    }
  }

  // ---- what can cost paid time ----

  /** A payment that replaces a running plan by another one. */
  predicate SwitchesPlan(b: Books, a: Action, o: OrgId)
    requires Known(b, o)
  {
    && PaidBy(o, a) != [] && !AlreadyProcessed(b, a.delivery.session)
    && Running(b.subs[o], b.now) && a.delivery.session.plan != b.subs[o].plan
  }

  /** The three steps that can bring the end forward, and when they do. */
  predicate CutsTime(b: Books, a: Action, o: OrgId)
    requires Known(b, o) && b.subs[o].end.Some?
  {
    var end := b.subs[o].end.value;
    || (a.UpdateByAdmin? && a.id == o && a.update.trialEndsAt.Some? && a.update.trialEndsAt.value < end)
    || (a == ActivateTrialOf(o) && ActivateTrial(b, o).Done? && b.now + FREE_TRIAL_DAYS * DAY < end)
    || (SwitchesPlan(b, a, o) && AddMonths(b.now, MonthsCount(a.delivery.session)) < end)
  }

  /** A step brings the end of a subscription forward exactly when an administrator sets an earlier date, a trial
      shorter than what is left starts, or a payment switches a running plan for less time than is left. */
  lemma EndMovesBackExact(b: Books, a: Action, o: OrgId)
    requires Sound(b) && o in b.orgs && b.subs[o].end.Some?
    ensures Known(Next(b, a), o) && Next(b, a).subs[o].end.Some?
    ensures Next(b, a).subs[o].end.value < b.subs[o].end.value <==> CutsTime(b, a, o)
  {
    assert GoodAt(b, o);
    NextGrows(b, a, o);
    if PaidBy(o, a) != [] {
      PaymentMovesEnd(b, a.delivery);
    } else {
      EndMovesBackUnpaid(b, a, o);
    }
  }

  lemma EndMovesBackUnpaid(b: Books, a: Action, o: OrgId)
    requires Known(b, o) && GoodAt(b, o) && b.subs[o].end.Some? && PaidBy(o, a) == []
    ensures Known(Next(b, a), o) && Next(b, a).subs[o].end.Some?
    ensures Next(b, a).subs[o].end.value < b.subs[o].end.value <==> CutsTime(b, a, o)
  {
  }

  /** Where a settled delivery leaves the end. */
  lemma PaymentMovesEnd(b: Books, d: Delivery)
    requires Sound(b) && IsPaid(d) && d.session.org in b.orgs && b.subs[d.session.org].end.Some?
    ensures var x, sub := d.session, b.subs[d.session.org];
      var t := Resulting(b, Deliver(b, d));
      && Known(t, x.org) && t.subs[x.org].end.Some?
      && (AlreadyProcessed(b, x) ==> t == b)
      && (!AlreadyProcessed(b, x) ==>
            && t.tallies[x.org].granted == b.tallies[x.org].granted + [x]
            && t.subs[x.org].end.value == NewExpiry(sub, x, b.now))
      && (sub.plan == x.plan || !Running(sub, b.now) ==>
            NewExpiry(sub, x, b.now) >= sub.end.value + 28 * MonthsCount(x) * DAY)
      && (sub.plan != x.plan ==> NewExpiry(sub, x, b.now) == AddMonths(b.now, MonthsCount(x)))
  {
    var x, sub := d.session, b.subs[d.session.org];
    DeliveryExact(b, d);
    ProcessedExact(b, x);
    AddMonthsExact(sub.end.value, MonthsCount(x));
    AddMonthsExact(b.now, MonthsCount(x));
  }

  /** No step of the run cuts time, and no payment switches a running plan. */
  predicate Considerate(b: Books, actions: seq<Action>, o: OrgId)
    requires Known(b, o)
  {
    actions == [] ||
    (var init, a := actions[..|actions| - 1], actions[|actions| - 1];
     RunGrows(b, init, o);
     var s := Run(b, init);
     Considerate(b, init, o) && !SwitchesPlan(s, a, o) && (s.subs[o].end.Some? ==> !CutsTime(s, a, o)))
  }

  function MonthsGranted(b: Books, t: Books, o: OrgId): nat
    requires Known(b, o) && Known(t, o)
  {
    Sum(MonthsOf(NewlyGranted(b, t, o)))
  }

  /** The end in t is at least 28 days later than in b for every month granted in between. */
  predicate PaidTimeKept(b: Books, t: Books, o: OrgId)
  {
    && Known(b, o) && Known(t, o) && b.tallies[o].granted <= t.tallies[o].granted
    && b.subs[o].end.Some? && t.subs[o].end.Some?
    && t.subs[o].end.value >= b.subs[o].end.value + 28 * MonthsGranted(b, t, o) * DAY
  }

  lemma MonthsOneMore(before: seq<Session>, x: Session, n: nat)
    requires n <= |before|
    ensures Sum(MonthsOf((before + [x])[n..])) == Sum(MonthsOf(before[n..])) + MonthsCount(x)
  {
    assert (before + [x])[n..] == before[n..] + [x];
    var months := MonthsOf((before + [x])[n..]);
    assert months[..|months| - 1] == MonthsOf(before[n..]);
  }

  lemma KeepOnce(b: Books, t: Books, a: Action, o: OrgId)
    requires Sound(t) && PaidTimeKept(b, t, o) && !SwitchesPlan(t, a, o) && !CutsTime(t, a, o)
    ensures PaidTimeKept(b, Next(t, a), o)
  {
    NextGrows(t, a, o);
    EndMovesBackExact(t, a, o);
    if PaidBy(o, a) == [] {
      NothingGranted(t, a, o);
    } else {
      PaymentMovesEnd(t, a.delivery);
      MonthsOneMore(t.tallies[o].granted, a.delivery.session, |b.tallies[o].granted|);
    }
  }

  /** Over every run at all that has none of those three steps, no paid time is lost: the end is at least 28 days later
      for every month granted. Expiries, dated top-ups and payments after the end are welcome. */
  lemma {:induction false} PaidTimeIsNeverLost(b: Books, actions: seq<Action>, o: OrgId)
    requires Sound(b) && o in b.orgs && b.subs[o].end.Some? && Considerate(b, actions, o)
    ensures PaidTimeKept(b, Run(b, actions), o)
  {
    if actions == [] {
      assert MonthsOf(NewlyGranted(b, b, o)) == [];
    } else {
      var init := actions[..|actions| - 1];
      PaidTimeIsNeverLost(b, init, o);
      EveryRunIsSound(b, init);
      KeepOnce(b, Run(b, init), actions[|actions| - 1], o);
    }
  }

  /** Renewals add between 28 and 31 days a month. */
  lemma RenewalsNeverLosePaidTime(b: Books, actions: seq<Action>, o: OrgId)
    requires Sound(b) && o in b.orgs && b.subs[o].end.Some? && Renewing(b, actions, o)
    ensures var t := Run(b, actions);
      && Known(t, o) && t.subs[o].end.Some?
      && var months := Sum(MonthsOf(NewlyGranted(b, t, o)));
         b.subs[o].end.value + 28 * months * DAY <= t.subs[o].end.value <= b.subs[o].end.value + 31 * months * DAY
  {
    RenewalsAddUp(b, actions, o);
    RenewalsKeepPaidTime(b.subs[o].end.value, MonthsOf(NewlyGranted(b, Run(b, actions), o)));
  }
}

/** What every step writes into the rows of an organization, and which plan it is on after any run. */
module PlanLaws {
  import opened Options
  import opened Plans
  import opened Subscriptions
  import opened SubscriptionSafety
  import opened SubscriptionFacts

  /** Only organization o's rows differ. */
  ghost predicate OnlyRowsOf(b: Books, t: Books, o: OrgId)
  {
    && t.now == b.now
    && (forall p :: p in b.orgs && p != o ==> p in t.orgs && t.orgs[p] == b.orgs[p])
    && (forall p :: p in b.subs && p != o ==> p in t.subs && t.subs[p] == b.subs[p])
  }

  /** A newcomer is on the free plan with 100 credits for 30 days, and may start a trial. */
  lemma RegisteredExact(b: Books, o: OrgId)
    requires Sound(b)
    ensures Register(b, o).Done? <==> o !in b.orgs
    ensures Register(b, o).Done? ==>
      var t := Register(b, o).next;
      && Known(t, o) && OnlyRowsOf(b, t, o)
      && t.orgs[o].plan == t.subs[o].plan == Free && t.orgs[o].pool == 100 && t.orgs[o].frozen == 0
      && t.subs[o].payment == PaymentCompleted && t.subs[o].external == None && t.subs[o].active
      && t.subs[o].start == b.now && t.subs[o].end == Some(b.now + 30 * 86_400_000) && t.subs[o].reminded == None
      && ActivateTrial(t, o).Done? && t.orgs[o].trialEndsAt == None
  {
  }

  // ---- payments ----

  /** Only a completed or later succeeded Stripe session, or a validated SSLCommerz payment, changes anything. */
  lemma UnpaidChangesNothing(b: Books, d: Delivery)
    requires match d
      case Stripe(event, _) => event != SessionCompleted && event != AsyncPaymentSucceeded
      case SslCommerz(valid, _) => !valid
    ensures Deliver(b, d) == Done(b)
  {
  }

  lemma PaidEvents(d: Delivery)
    ensures d.Stripe? && d.event == SessionCompleted ==> IsPaid(d)
    ensures d.Stripe? && d.event == AsyncPaymentSucceeded ==> IsPaid(d)
    ensures d.SslCommerz? && d.valid ==> IsPaid(d)
  {
  }

  /** The delivery grants its session to organization o: it is paid, for o, and not the one granted last. */
  predicate Grants(b: Books, d: Delivery, o: OrgId)
  {
    && IsPaid(d) && d.session.org == o && Known(b, o)
    && (b.tallies[o].granted == [] || Last(b.tallies[o].granted) != d.session)
  }

  /** A payment that grants puts the organization on the plan it paid for, in both places. It is completed and on
      record, the trial is neither allowed nor open any more, and no credit stays frozen. The months paid for count from
      the end of the subscription when that plan is running, else from now; no number of months counts as one. */
  lemma PaidExact(b: Books, d: Delivery, o: OrgId)
    requires Sound(b) && Grants(b, d, o)
    ensures Deliver(b, d).Done?
    ensures var t, x := Deliver(b, d).next, d.session;
      && Known(t, o) && OnlyRowsOf(b, t, o)
      && t.orgs[o].plan == t.subs[o].plan == x.plan
      && t.subs[o].payment == PaymentCompleted && t.subs[o].external == Some(x) && t.subs[o].start == b.now
      && t.subs[o].active == b.subs[o].active && t.subs[o].reminded == b.subs[o].reminded
      && !t.orgs[o].trialAllowed && t.orgs[o].hasUsedTrial && t.orgs[o].trialEndsAt == None
      && t.orgs[o].frozen == 0 && t.orgs[o].pool == b.orgs[o].pool + b.orgs[o].frozen + InitialCredits(x.plan)
      && var months := if x.months == 0 then 1 else x.months;
         t.subs[o].end == Some(
           if b.subs[o].plan == x.plan && Running(b.subs[o], b.now) then AddMonths(b.subs[o].end.value, months)
           else AddMonths(b.now, months))
  {
    ProcessedExact(b, d.session);
    assert GoodAt(b, o);
  }

  lemma UngrantedChangesNothing(b: Books, d: Delivery, o: OrgId)
    requires Sound(b) && Known(b, o) && !Grants(b, d, o)
    ensures var t := Resulting(b, Deliver(b, d));
      Known(t, o) && t.orgs[o] == b.orgs[o] && t.subs[o] == b.subs[o]
  {
    ProcessedExact(b, d.session);
    assert GoodAt(b, o);
  }

  // ---- trials and expiry ----

  /** A trial is the PRO plan with 200 credits for a week; what was frozen stays frozen. */
  lemma TrialStartedExact(b: Books, o: OrgId)
    requires Sound(b) && ActivateTrial(b, o).Done?
    ensures var t := ActivateTrial(b, o).next;
      && Known(b, o) && Known(t, o) && OnlyRowsOf(b, t, o)
      && t.orgs[o].plan == t.subs[o].plan == Pro && t.orgs[o].pool == b.orgs[o].pool + 200
      && t.orgs[o].frozen == b.orgs[o].frozen && t.orgs[o].hasUsedTrial
      && t.subs[o].payment == PaymentTrial && t.subs[o].active && t.subs[o].start == b.now
      && t.subs[o].end == t.orgs[o].trialEndsAt == Some(b.now + 7 * 86_400_000)
  {
    assert GoodAt(b, o);
  }

  /** An active subscription to a plan that costs something, past its end, with no reminder during the last day. */
  predicate Lapsed(sub: Subscription, now: int)
  {
    && sub.active && (sub.plan == Pro || sub.plan == Enterprise || sub.plan == Trial)
    && sub.end.Some? && now > sub.end.value
    && (sub.reminded.Some? ==> now - sub.reminded.value > 86_400_000)
  }

  /** The expiry sweep puts exactly the lapsed subscriptions on the free plan for 30 days; it touches no other. */
  lemma ExpiredExact(b: Books, o: OrgId)
    requires Sound(b) && o in b.orgs
    ensures var t := ExpirySweep(b);
      && Known(t, o)
      && (Lapsed(b.subs[o], b.now) ==>
            && t.orgs[o].plan == t.subs[o].plan == Free && t.subs[o].payment == PaymentCompleted
            && t.subs[o].end == Some(b.now + 30 * 86_400_000) && t.subs[o].reminded == Some(b.now)
            && t.subs[o].external == b.subs[o].external
            && t.orgs[o].pool == 100 && t.orgs[o].frozen == b.orgs[o].frozen + Max(b.orgs[o].pool - 100, 0))
      && (!Lapsed(b.subs[o], b.now) ==> t.orgs[o] == b.orgs[o] && t.subs[o] == b.subs[o])
  {
  }

  /** A reminder puts an expiry off by a day: the sweep leaves the subscription until then, and takes it right after. */
  lemma ReminderDelaysExpiry(b: Books, o: OrgId, elapsed: nat)
    requires Sound(b) && o in b.orgs && Lapsed(b.subs[o], b.now)
    ensures var later := Resulting(b, Remind(b, o)).(now := b.now + elapsed);
      && Known(later, o) && Known(ExpirySweep(later), o)
      && (elapsed <= 86_400_000 ==> ExpirySweep(later).subs[o] == later.subs[o])
      && (elapsed > 86_400_000 ==> ExpirySweep(later).subs[o].plan == Free)
  {
  }

  /** A reminder is stamped, and nothing else happens. */
  lemma RemindedExact(b: Books, o: OrgId)
    requires Known(b, o)
    ensures Remind(b, o).Done?
    ensures var t := Remind(b, o).next;
      && Known(t, o) && OnlyRowsOf(b, t, o) && t.orgs[o] == b.orgs[o]
      && t.subs[o] == b.subs[o].(reminded := Some(b.now))
  {
  }

  /** The monthly reset sets exactly the pools of active free subscriptions to 100, and touches nothing else. */
  lemma ResetExact(b: Books, o: OrgId)
    requires Sound(b) && o in b.orgs
    ensures var t := ResetFree(b);
      && Known(t, o) && t.subs == b.subs
      && t.orgs[o] == if b.subs[o].plan == Free && b.subs[o].active then b.orgs[o].(pool := 100) else b.orgs[o]
  {
  }

  // ---- administrators ----

  /** An accepted top-up that names a plan puts the organization on it in both places, and one that names none leaves
      it; a date or a plan makes the subscription active, and it is active afterwards in any case. */
  lemma ToppedUpExact(b: Books, o: OrgId, data: TopUp)
    requires Sound(b) && TopUpOrganization(b, o, data).Done?
    ensures var t := TopUpOrganization(b, o, data).next;
      && Known(b, o) && Known(t, o) && OnlyRowsOf(b, t, o)
      && t.orgs[o].plan == t.subs[o].plan == (if data.plan.Some? then data.plan.value else b.subs[o].plan)
      && t.subs[o].active && t.orgs[o].pool == b.orgs[o].pool + data.credits
      && t.subs[o].payment == b.subs[o].payment && t.subs[o].external == b.subs[o].external
      && (data.extendDate.Some? ==> t.subs[o].end == data.extendDate)
      && (data.extendDate.None? ==> t.subs[o].end == b.subs[o].end)
      && t.orgs[o].hasUsedTrial == b.orgs[o].hasUsedTrial && t.orgs[o].frozen == b.orgs[o].frozen
  {
    assert GoodAt(b, o);
  }

  /** An administrator's update sets the trial permission it names. A trial end date marks the trial used, whatever the
      update says about that, and makes the subscription active until then; without one a used trial stays as it is. */
  lemma UpdatedExact(b: Books, o: OrgId, data: OrgUpdate)
    requires Known(b, o)
    ensures UpdateOrganization(b, o, data).Done?
    ensures var t := UpdateOrganization(b, o, data).next;
      && Known(t, o) && OnlyRowsOf(b, t, o)
      && t.orgs[o].trialAllowed == (if data.trialAllowed.Some? then data.trialAllowed.value else b.orgs[o].trialAllowed)
      && (data.trialEndsAt.Some? ==>
            && t.orgs[o].hasUsedTrial && t.orgs[o].trialEndsAt == data.trialEndsAt
            && t.subs[o] == b.subs[o].(end := data.trialEndsAt, active := true))
      && (data.trialEndsAt.None? ==>
            && t.orgs[o].hasUsedTrial == b.orgs[o].hasUsedTrial && t.orgs[o].trialEndsAt == b.orgs[o].trialEndsAt
            && t.subs[o] == b.subs[o])
      && t.orgs[o].pool == b.orgs[o].pool && t.orgs[o].frozen == b.orgs[o].frozen && t.orgs[o].plan == b.orgs[o].plan
  {
  }

  /** Credits move between the pool and the members exactly when the pool does not go below zero. */
  lemma TransferExact(b: Books, o: OrgId, delta: int)
    ensures MovePool(b, o, delta).Done? <==> Known(b, o) && b.orgs[o].pool + delta >= 0
    ensures MovePool(b, o, delta).Done? ==>
      var t := MovePool(b, o, delta).next;
      && Known(t, o) && OnlyRowsOf(b, t, o) && t.subs[o] == b.subs[o]
      && t.orgs[o] == b.orgs[o].(pool := b.orgs[o].pool + delta)
  {
  }

  // ---- the plan over runs ----

  /** The plan that an action puts organization o on, if it sets one: a granted payment its own, a trial PRO, an expiry
      the free one, an accepted top-up the one it names. */
  predicate Sets(b: Books, a: Action, o: OrgId, plan: Plan)
    requires Known(b, o)
  {
    || (a.DeliverEvent? && Grants(b, a.delivery, o) && plan == a.delivery.session.plan)
    || (a == ActivateTrialOf(o) && b.orgs[o].trialAllowed && !b.orgs[o].hasUsedTrial && plan == Pro)
    || (a.ExpireSubscriptions? && Lapsed(b.subs[o], b.now) && plan == Free)
    || (a.TopUpCredits? && a.id == o && TopUpOrganization(b, o, a.topUp).Done? && a.topUp.plan == Some(plan))
  }

  predicate SetsNone(b: Books, a: Action, o: OrgId)
    requires Known(b, o)
  {
    forall plan :: !Sets(b, a, o, plan)
  }

  lemma NextPlan(b: Books, a: Action, o: OrgId)
    requires Sound(b) && o in b.orgs
    ensures Known(Next(b, a), o)
    ensures forall plan :: Sets(b, a, o, plan) ==> Next(b, a).orgs[o].plan == Next(b, a).subs[o].plan == plan
    ensures SetsNone(b, a, o) ==> Next(b, a).orgs[o].plan == Next(b, a).subs[o].plan == b.subs[o].plan
  {
    assert GoodAt(b, o);
    NextGrows(b, a, o);
    match a
    case DeliverEvent(d) => DeliveryPlan(b, d, o);
    case ActivateTrialOf(p) => if ActivateTrial(b, p).Done? { TrialStartedExact(b, p); } TrialPlan(b, p, o);
    case ExpireSubscriptions => ExpiredExact(b, o); assert Lapsed(b.subs[o], b.now) ==> Sets(b, a, o, Free);
    case TopUpCredits(p, data) =>
      if TopUpOrganization(b, p, data).Done? {
        ToppedUpExact(b, p, data);
        assert p == o && data.plan.Some? ==> Sets(b, a, o, data.plan.value);
      }
    case UpdateByAdmin(p, data) => if Known(b, p) { UpdatedExact(b, p, data); }
    case _ =>
  }

  lemma DeliveryPlan(b: Books, d: Delivery, o: OrgId)
    requires Sound(b) && o in b.orgs
    ensures var t := Next(b, DeliverEvent(d));
      && Known(t, o)
      && (Grants(b, d, o) ==>
            && Sets(b, DeliverEvent(d), o, d.session.plan)
            && t.orgs[o].plan == t.subs[o].plan == d.session.plan)
      && (!Grants(b, d, o) ==> t.orgs[o].plan == t.subs[o].plan == b.subs[o].plan)
  {
    assert GoodAt(b, o);
    if Grants(b, d, o) {
      PaidExact(b, d, o);
    } else {
      UngrantedChangesNothing(b, d, o);
    }
  }

  lemma TrialPlan(b: Books, p: OrgId, o: OrgId)
    requires Sound(b) && o in b.orgs
    ensures p == o && ActivateTrial(b, o).Done? ==> Sets(b, ActivateTrialOf(p), o, Pro)
    ensures p != o || ActivateTrial(b, o).Refused? ==> SetsNone(b, ActivateTrialOf(p), o)
  {
    TrialExact(b, o);
  }

  /** No action of the run sets a plan for o. */
  predicate PlanLeft(b: Books, actions: seq<Action>, o: OrgId)
    requires Known(b, o)
  {
    actions == [] ||
    (var init := actions[..|actions| - 1];
     RunGrows(b, init, o);
     PlanLeft(b, init, o) && SetsNone(Run(b, init), actions[|actions| - 1], o))
  }

  /** An organization stays on its plan over every run in which nothing sets one. */
  lemma {:induction false} PlanStays(b: Books, actions: seq<Action>, o: OrgId)
    requires Sound(b) && o in b.orgs && PlanLeft(b, actions, o)
    ensures Known(Run(b, actions), o)
    ensures Run(b, actions).orgs[o].plan == Run(b, actions).subs[o].plan == b.subs[o].plan
  {
    RunGrows(b, actions, o);
    if actions == [] {
      assert GoodAt(b, o);
    } else {
      var init := actions[..|actions| - 1];
      PlanStays(b, init, o);
      EveryRunIsSound(b, init);
      NextPlan(Run(b, init), actions[|actions| - 1], o);
    }
  }

  /** After any run the plan is the one set last: by the last granted payment, unless a trial, an expiry or a top-up
      that names a plan came later. */
  lemma PlanIsLastSet(b: Books, a: Action, later: seq<Action>, o: OrgId, plan: Plan)
    requires Sound(b) && o in b.orgs && Sets(b, a, o, plan)
    requires Known(Next(b, a), o) && PlanLeft(Next(b, a), later, o)
    ensures var t := Run(Next(b, a), later); Known(t, o) && t.orgs[o].plan == t.subs[o].plan == plan
  {
    NextPlan(b, a, o);
    NextKeepsSound(b, a);
    PlanStays(Next(b, a), later, o);
  }
}

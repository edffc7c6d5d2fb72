/** Organizations, their subscriptions, and what payments, trials, expiry and administrators do to them. */
module Subscriptions {
  import opened Calendar
  import opened Options
  import opened Plans

  type OrgId = nat

  datatype PaymentStatus = PaymentPending | PaymentCompleted | PaymentFailed | PaymentOverdue | PaymentTrial

  /** A checkout session. Its metadata is fixed when it is created, so the session stands for its identifier. */
  datatype Session = Session(serial: nat, org: OrgId, plan: Plan, months: nat)

  datatype Org = Org(
    pool: int, frozen: int, plan: Plan, hasUsedTrial: bool, trialAllowed: bool, trialEndsAt: Option<int>)

  datatype Subscription = Subscription(
    plan: Plan, payment: PaymentStatus, external: Option<Session>,
    start: int, end: Option<int>, active: bool, reminded: Option<int>)

  /** History of one organization: credits frozen and released, trials started, sessions that were granted. */
  datatype Tally = Tally(frozenIn: int, released: int, trials: nat, granted: seq<Session>, planCredits: int)

  datatype Books = Books(now: int, orgs: map<OrgId, Org>, subs: map<OrgId, Subscription>, tallies: map<OrgId, Tally>)

  datatype Outcome = Done(next: Books) | Refused

  const FREE_TRIAL_DAYS := 7
  const FREE_PLAN_DURATION_DAYS := 30

  /** All three rows of one organization. */
  function Put(b: Books, o: OrgId, org: Org, sub: Subscription, tally: Tally): Books
  {
    b.(orgs := b.orgs[o := org], subs := b.subs[o := sub], tallies := b.tallies[o := tally])
  }

  predicate Known(b: Books, o: OrgId)
  {
    o in b.orgs && o in b.subs && o in b.tallies
  }

  function Register(b: Books, o: OrgId): Outcome
  {
    if o in b.orgs || o in b.subs || o in b.tallies then Refused
    else Done(Put(b, o,
      Org(InitialCredits(Free), 0, Free, false, true, None),
      Subscription(Free, PaymentCompleted, None, b.now, Some(b.now + FREE_PLAN_DURATION_DAYS * DAY), true, None),
      Tally(0, 0, 0, [], 0)))
  }

  // ---- payments ----

  datatype StripeEvent = SessionCompleted | AsyncPaymentSucceeded | AsyncPaymentFailed | OtherEvent

  /** What a payment provider sends; for SSLCommerz, `valid` is the answer of its validation service. */
  datatype Delivery = Stripe(event: StripeEvent, session: Session) | SslCommerz(valid: bool, session: Session)

  predicate IsPaid(d: Delivery)
  {
    match d
    case Stripe(event, _) => event == SessionCompleted || event == AsyncPaymentSucceeded
    case SslCommerz(valid, _) => valid
  }

  /** The idempotency check: some subscription still names this session and is paid. */
  predicate AlreadyProcessed(b: Books, x: Session)
  {
    exists o :: o in b.subs && b.subs[o].external == Some(x) && b.subs[o].payment == PaymentCompleted
  }

  /** `parseInt(months) || 1` */
  function MonthsCount(x: Session): nat
  {
    if x.months == 0 then 1 else x.months
  }

  /** A running subscription to the same plan is extended, anything else starts now. */
  function NewExpiry(sub: Subscription, x: Session, now: int): int
  {
    var running := sub.plan == x.plan && sub.end.Some? && sub.end.value > now;
    AddMonths(if running then sub.end.value else now, MonthsCount(x))
  }

  function PaidOrg(org: Org, x: Session): Org
  {
    org.(pool := org.pool + InitialCredits(x.plan) + org.frozen, frozen := 0, plan := x.plan,
         hasUsedTrial := true, trialAllowed := false, trialEndsAt := None)
  }

  function PaidSub(sub: Subscription, x: Session, now: int): Subscription
  {
    sub.(plan := x.plan, payment := PaymentCompleted, external := Some(x),
         start := now, end := Some(NewExpiry(sub, x, now)))
  }

  function PaidTally(tally: Tally, org: Org, x: Session): Tally
  {
    tally.(released := tally.released + org.frozen, granted := tally.granted + [x],
           planCredits := tally.planCredits + InitialCredits(x.plan))
  }

  function Deliver(b: Books, d: Delivery): Outcome
  {
    var x := d.session;
    if !IsPaid(d) || AlreadyProcessed(b, x) then Done(b)
    else if !Known(b, x.org) then Refused
    else if exists o :: o in b.subs && o != x.org && b.subs[o].external == Some(x) then Refused
    else
      var org, sub, tally := b.orgs[x.org], b.subs[x.org], b.tallies[x.org];
      Done(Put(b, x.org, PaidOrg(org, x), PaidSub(sub, x, b.now), PaidTally(tally, org, x)))
  }

  // ---- trial ----

  function ActivateTrial(b: Books, o: OrgId): Outcome
  {
    if !Known(b, o) || !b.orgs[o].trialAllowed || b.orgs[o].hasUsedTrial then Refused
    else
      var org, sub, tally := b.orgs[o], b.subs[o], b.tallies[o];
      var end := if org.trialEndsAt.Some? && org.trialEndsAt.value > b.now then org.trialEndsAt.value
                 else b.now + FREE_TRIAL_DAYS * DAY;
      Done(Put(b, o,
        org.(pool := org.pool + InitialCredits(Trial), plan := Pro, hasUsedTrial := true, trialEndsAt := Some(end)),
        sub.(plan := Pro, active := true, start := b.now, end := Some(end), payment := PaymentTrial),
        tally.(trials := tally.trials + 1)))
  }

  // ---- cron jobs ----

  /** Not on the free plan, past its end, active, and not reminded during the last day. */
  predicate Due(sub: Subscription, now: int)
  {
    && sub.plan != Free && sub.end.Some? && sub.end.value < now && sub.active
    && (sub.reminded == None || sub.reminded.value < now - DAY)
  }

  function Excess(pool: int): nat
  {
    if pool > InitialCredits(Free) then pool - InitialCredits(Free) else 0
  }

  function ExpiredOrg(org: Org): Org
  {
    org.(pool := InitialCredits(Free), plan := Free, frozen := org.frozen + Excess(org.pool))
  }

  function ExpiredSub(sub: Subscription, now: int): Subscription
  {
    sub.(plan := Free, reminded := Some(now), end := Some(now + 30 * DAY), payment := PaymentCompleted)
  }

  function ExpiredTally(tally: Tally, org: Org): Tally
  {
    tally.(frozenIn := tally.frozenIn + Excess(org.pool))
  }

  function DueIds(b: Books): set<OrgId>
  {
    set o | o in b.subs && o in b.orgs && o in b.tallies && Due(b.subs[o], b.now)
  }

  function ExpireThese(b: Books, os: set<OrgId>): Books
  {
    b.(orgs := map o | o in b.orgs :: if o in os then ExpiredOrg(b.orgs[o]) else b.orgs[o],
       subs := map o | o in b.subs :: if o in os then ExpiredSub(b.subs[o], b.now) else b.subs[o],
       tallies := map o | o in b.tallies ::
         if o in os && o in b.orgs then ExpiredTally(b.tallies[o], b.orgs[o]) else b.tallies[o])
  }

  function ExpirySweep(b: Books): Books
  {
    ExpireThese(b, DueIds(b))
  }

  function FreeIds(b: Books): set<OrgId>
  {
    set o | o in b.subs && b.subs[o].plan == Free && b.subs[o].active
  }

  /** resetFreeUserCredits: updateMany */
  function ResetFree(b: Books): Books
  {
    b.(orgs := map o | o in b.orgs :: if o in FreeIds(b) then b.orgs[o].(pool := InitialCredits(Free)) else b.orgs[o])
  }

  /** The reminder jobs only stamp last_reminder_sent. */
  function Remind(b: Books, o: OrgId): Outcome
  {
    if !Known(b, o) then Refused
    else Done(Put(b, o, b.orgs[o], b.subs[o].(reminded := Some(b.now)), b.tallies[o]))
  }

  // ---- administrators ----

  /** `plan` is FREE, PRO or ENTERPRISE when given. */
  datatype TopUp = TopUp(credits: nat, extendDate: Option<int>, plan: Option<Plan>)

  function TopUpOrganization(b: Books, o: OrgId, data: TopUp): Outcome
  {
    if !Known(b, o) then Refused
    else
      var org, sub, tally := b.orgs[o], b.subs[o], b.tallies[o];
      var expired := if sub.end.Some? then sub.end.value < b.now else true;
      var currentEnd := if sub.end.Some? then sub.end.value else b.now;
      var plan := if data.plan.Some? then data.plan.value else sub.plan;
      var topped := org.(pool := org.pool + data.credits, plan := plan);
      if expired && data.extendDate == None then Refused
      else if data.extendDate.Some? || data.plan.Some? || !sub.active then
        var extended := if data.extendDate.Some? then data.extendDate.value else currentEnd;
        if extended < currentEnd then Refused
        else Done(Put(b, o, topped, sub.(end := Some(extended), active := true, plan := plan), tally))
      else Done(Put(b, o, topped, sub, tally))
  }

  /** The fields of an organization update that matter here; `hasUsedTrial` is accepted and ignored. */
  datatype OrgUpdate = OrgUpdate(hasUsedTrial: Option<bool>, trialAllowed: Option<bool>, trialEndsAt: Option<int>)

  function UpdateOrganization(b: Books, o: OrgId, data: OrgUpdate): Outcome
  {
    if !Known(b, o) then Refused
    else
      var org, sub := b.orgs[o], b.subs[o];
      var allowed := if data.trialAllowed.Some? then data.trialAllowed.value else org.trialAllowed;
      if data.trialEndsAt.Some? then
        Done(Put(b, o, org.(trialAllowed := allowed, hasUsedTrial := true, trialEndsAt := data.trialEndsAt),
                 sub.(end := data.trialEndsAt, active := true), b.tallies[o]))
      else
        Done(Put(b, o, org.(trialAllowed := allowed), sub, b.tallies[o]))
  }

  /** Allocating to staff and revoking, as the pool sees it: a guarded transfer that cannot overdraw it. */
  function MovePool(b: Books, o: OrgId, delta: int): Outcome
  {
    if !Known(b, o) || b.orgs[o].pool + delta < 0 then Refused
    else Done(Put(b, o, b.orgs[o].(pool := b.orgs[o].pool + delta), b.subs[o], b.tallies[o]))
  }
}

/** The same operations on the tables, step by step. */
module SubscriptionServices {
  import opened Calendar
  import opened Options
  import opened Plans
  import opened Subscriptions

  /** `NotReceived` is the answer to an SSLCommerz payment that does not validate. */
  datatype Reply = Received | NotReceived | Failed

  class Database {
    var now: int
    var orgs: map<OrgId, Org>
    var subs: map<OrgId, Subscription>
    ghost var tallies: map<OrgId, Tally>

    ghost function View(): Books
      reads this
    {
      Books(now, orgs, subs, tallies)
    }

    constructor (now: int)
      ensures View() == Books(now, map[], map[], map[])
    {
      this.now := now;
      orgs := map[];
      subs := map[];
      tallies := map[];
    }

    /** The tables hold the same organizations. */
    ghost predicate Aligned()
      reads this
    {
      orgs.Keys == subs.Keys == tallies.Keys
    }
  }

  ghost predicate Follows(outcome: Outcome, before: Books, after: Books, reply: Reply)
  {
    match outcome
    case Done(next) => reply == Received && after == next
    case Refused => reply == Failed && after == before
  }

  /** The rows that registration creates for a new organization. */
  method RegisterOrganization(db: Database, o: OrgId) returns (reply: Reply)
    requires db.Aligned()
    modifies db
    ensures Follows(Register(old(db.View()), o), old(db.View()), db.View(), reply)
  {
    if o in db.orgs {
      return Failed;
    }
    db.orgs := db.orgs[o := Org(InitialCredits(Free), 0, Free, false, true, None)];
    db.subs := db.subs[o := Subscription(
      Free, PaymentCompleted, None, db.now, Some(db.now + FREE_PLAN_DURATION_DAYS * DAY), true, None)];
    db.tallies := db.tallies[o := Tally(0, 0, 0, [], 0)];
    return Received;
  }

  /** The transaction that both payment handlers run once a session is new. */
  method ApplyPayment(db: Database, x: Session) returns (reply: Reply)
    requires db.Aligned() && !AlreadyProcessed(db.View(), x)
    modifies db
    ensures forall d :: IsPaid(d) && d.session == x ==>
      Follows(Deliver(old(db.View()), d), old(db.View()), db.View(), reply)
  {
    if x.org !in db.orgs {
      return Failed;
    }
    if exists o :: o in db.subs && o != x.org && db.subs[o].external == Some(x) {
      return Failed;
    }
    var organization := db.orgs[x.org];
    var monthsCount := if x.months == 0 then 1 else x.months;
    var creditsToAdd := InitialCredits(x.plan);
    var newBalance := organization.pool + creditsToAdd + organization.frozen;
    var currentSub := db.subs[x.org];
    var newExpiryDate := db.now;
    if currentSub.plan == x.plan && currentSub.end.Some? && currentSub.end.value > db.now {
      newExpiryDate := currentSub.end.value;
    }
    newExpiryDate := AddMonths(newExpiryDate, monthsCount);
    db.subs := db.subs[x.org := currentSub.(
      plan := x.plan, payment := PaymentCompleted, external := Some(x), start := db.now, end := Some(newExpiryDate))];
    db.orgs := db.orgs[x.org := organization.(
      pool := newBalance, frozen := 0, plan := x.plan,
      hasUsedTrial := true, trialAllowed := false, trialEndsAt := None)];
    db.tallies := db.tallies[x.org := PaidTally(db.tallies[x.org], organization, x)];
    return Received;
  }

  method HandleStripeWebhook(db: Database, event: StripeEvent, x: Session) returns (reply: Reply)
    requires db.Aligned()
    modifies db
    ensures Follows(Deliver(old(db.View()), Stripe(event, x)), old(db.View()), db.View(), reply)
  {
    if exists o :: o in db.subs && db.subs[o].external == Some(x) && db.subs[o].payment == PaymentCompleted {
      return Received;
    }
    assert !AlreadyProcessed(db.View(), x);
    if event == SessionCompleted || event == AsyncPaymentSucceeded {
      reply := ApplyPayment(db, x);
      return;
    }
    return Received;
  }

  method HandleSslIpn(db: Database, valid: bool, x: Session) returns (reply: Reply)
    requires db.Aligned()
    modifies db
    ensures valid ==> Follows(Deliver(old(db.View()), SslCommerz(true, x)), old(db.View()), db.View(), reply)
    ensures !valid ==> reply == NotReceived && db.View() == old(db.View())
    ensures !valid ==> Deliver(old(db.View()), SslCommerz(false, x)) == Done(db.View())
  {
    if !valid {
      return NotReceived;
    }
    if exists o :: o in db.subs && db.subs[o].external == Some(x) && db.subs[o].payment == PaymentCompleted {
      return Received;
    }
    assert !AlreadyProcessed(db.View(), x);
    reply := ApplyPayment(db, x);
  }

  method StartTrial(db: Database, o: OrgId) returns (reply: Reply)
    requires db.Aligned()
    modifies db
    ensures Follows(ActivateTrial(old(db.View()), o), old(db.View()), db.View(), reply)
  {
    if o !in db.orgs {
      return Failed;
    }
    var organization := db.orgs[o];
    if !organization.trialAllowed {
      return Failed;
    }
    if organization.hasUsedTrial {
      return Failed;
    }
    var newBalance := organization.pool + InitialCredits(Trial);
    var trialEndDate := db.now + FREE_TRIAL_DAYS * DAY;
    if organization.trialEndsAt.Some? && organization.trialEndsAt.value > db.now {
      trialEndDate := organization.trialEndsAt.value;
    }
    db.subs := db.subs[o := db.subs[o].(
      plan := Pro, active := true, start := db.now, end := Some(trialEndDate), payment := PaymentTrial)];
    db.orgs := db.orgs[o := organization.(
      plan := Pro, pool := newBalance, hasUsedTrial := true, trialEndsAt := Some(trialEndDate))];
    db.tallies := db.tallies[o := db.tallies[o].(trials := db.tallies[o].trials + 1)];
    return Received;
  }

  /** sendExpiredSubscriptionNotifications: one transaction per expired subscription. */
  method DowngradeExpired(db: Database)
    requires db.Aligned()
    modifies db
    ensures db.View() == ExpirySweep(old(db.View()))
  {
    ghost var before := db.View();
    var expired := set o | o in db.subs && Due(db.subs[o], db.now);
    assert expired == DueIds(before);
    DowngradeEach(db, expired);
  }

  method DowngradeEach(db: Database, expired: set<OrgId>)
    requires db.Aligned() && expired <= db.orgs.Keys
    modifies db
    ensures db.View() == ExpireThese(old(db.View()), expired)
  {
    ghost var before := db.View();
    var waiting := expired;
    ExpireNone(before);
    assert expired - waiting == {};
    while waiting != {}
      invariant waiting <= expired
      invariant db.View() == ExpireThese(before, expired - waiting)
      decreases |waiting|
    {
      var o :| o in waiting;
      ExpireOneMore(before, expired - waiting, o);
      Downgrade(db, o);
      assert expired - waiting + {o} == expired - (waiting - {o});
      waiting := waiting - {o};
    }
    assert expired - waiting == expired;
  }

  method Downgrade(db: Database, o: OrgId)
    requires o in db.orgs && o in db.subs && o in db.tallies
    modifies db
    ensures db.View() == ExpireOne(old(db.View()), o)
  {
    var currentPool := db.orgs[o].pool;
    var freeLimit := InitialCredits(Free);
    var excessCredits := if currentPool > freeLimit then currentPool - freeLimit else 0;
    db.subs := db.subs[o := db.subs[o].(
      plan := Free, reminded := Some(db.now), end := Some(db.now + 30 * DAY), payment := PaymentCompleted)];
    db.tallies := db.tallies[o := db.tallies[o].(frozenIn := db.tallies[o].frozenIn + excessCredits)];
    db.orgs := db.orgs[o := db.orgs[o].(pool := freeLimit, plan := Free, frozen := db.orgs[o].frozen + excessCredits)];
  }

  ghost function ExpireOne(b: Books, o: OrgId): Books
    requires Known(b, o)
  {
    Put(b, o, ExpiredOrg(b.orgs[o]), ExpiredSub(b.subs[o], b.now), ExpiredTally(b.tallies[o], b.orgs[o]))
  }

  lemma ExpireNone(b: Books)
    ensures ExpireThese(b, {}) == b
  {
    assert ExpireThese(b, {}).orgs == b.orgs;
    assert ExpireThese(b, {}).subs == b.subs;
    assert ExpireThese(b, {}).tallies == b.tallies;
  }

  lemma ExpireOneMore(b: Books, done: set<OrgId>, o: OrgId)
    requires Known(b, o) && o !in done
    ensures Known(ExpireThese(b, done), o)
    ensures ExpireOne(ExpireThese(b, done), o) == ExpireThese(b, done + {o})
  {
    var one, all := ExpireOne(ExpireThese(b, done), o), ExpireThese(b, done + {o});
    assert one.orgs == all.orgs;
    assert one.subs == all.subs;
    assert one.tallies == all.tallies;
  }

  method ResetFreeUserCredits(db: Database)
    modifies db
    ensures db.View() == ResetFree(old(db.View()))
  {
    var free := set o | o in db.subs && db.subs[o].plan == Free && db.subs[o].active;
    assert free == FreeIds(db.View());
    db.orgs := map o | o in db.orgs :: if o in free then db.orgs[o].(pool := InitialCredits(Free)) else db.orgs[o];
  }

  method TopUpOrganizationCredits(db: Database, o: OrgId, data: TopUp) returns (reply: Reply)
    requires db.Aligned()
    modifies db
    ensures Follows(TopUpOrganization(old(db.View()), o, data), old(db.View()), db.View(), reply)
  {
    if o !in db.orgs {
      return Failed;
    }
    var organization, subscription := db.orgs[o], db.subs[o];
    var newBalance := organization.pool + data.credits;
    var currentEndDate := if subscription.end.Some? then subscription.end.value else db.now;
    var isAlreadyExpired := if subscription.end.Some? then subscription.end.value < db.now else true;
    var planType := if data.plan.Some? then data.plan.value else subscription.plan;
    if isAlreadyExpired && data.extendDate == None {
      return Failed;
    }
    db.orgs := db.orgs[o := organization.(pool := newBalance, plan := planType)];
    if data.extendDate.Some? || data.plan.Some? || !subscription.active {
      var extendDate := if data.extendDate.Some? then data.extendDate.value else currentEndDate;
      if extendDate < currentEndDate {
        db.orgs := db.orgs[o := organization]; // the transaction rolls back
        assert db.orgs == old(db.orgs);
        return Failed;
      }
      db.subs := db.subs[o := subscription.(end := Some(extendDate), active := true, plan := planType)];
    }
    assert db.subs == old(db.subs)[o := db.subs[o]] && db.tallies == old(db.tallies)[o := db.tallies[o]];
    return Received;
  }

  method UpdateOrganizationByAdmin(db: Database, o: OrgId, data: OrgUpdate) returns (reply: Reply)
    requires db.Aligned()
    modifies db
    ensures Follows(UpdateOrganization(old(db.View()), o, data), old(db.View()), db.View(), reply)
  {
    if o !in db.orgs {
      return Failed;
    }
    var organization := db.orgs[o];
    var allowed := if data.trialAllowed.Some? then data.trialAllowed.value else organization.trialAllowed;
    var used := if data.trialEndsAt.Some? then true else organization.hasUsedTrial;
    var trialEndsAt := if data.trialEndsAt.Some? then data.trialEndsAt else organization.trialEndsAt;
    db.orgs := db.orgs[o := organization.(trialAllowed := allowed, hasUsedTrial := used, trialEndsAt := trialEndsAt)];
    if data.trialEndsAt.Some? {
      db.subs := db.subs[o := db.subs[o].(end := data.trialEndsAt, active := true)];
    }
    assert db.subs == old(db.subs)[o := db.subs[o]] && db.tallies == old(db.tallies)[o := db.tallies[o]];
    return Received;
  }
}

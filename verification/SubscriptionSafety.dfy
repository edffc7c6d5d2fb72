/** Every run of payments, trials, expiries, resets and administrators. */
module SubscriptionSafety {
  import opened Options
  import opened Plans
  import opened Subscriptions

  function Last(xs: seq<Session>): Session
    requires xs != []
  {
    xs[|xs| - 1]
  }

  function CreditsOf(xs: seq<Session>): int
  {
    if xs == [] then 0 else CreditsOf(xs[..|xs| - 1]) + InitialCredits(Last(xs).plan)
  }

  /** What one organization's three rows agree on. */
  predicate Good(o: OrgId, org: Org, sub: Subscription, tally: Tally)
  {
    && org.plan == sub.plan
    && org.pool >= 0 && org.frozen >= 0
    && tally.frozenIn == tally.released + org.frozen
    && (sub.external == if tally.granted == [] then None else Some(Last(tally.granted)))
    && (sub.external.Some? ==> sub.payment == PaymentCompleted && org.hasUsedTrial)
    && tally.trials <= 1
    && (tally.trials > 0 || org.trialEndsAt.Some? ==> org.hasUsedTrial)
    && (forall x :: x in tally.granted ==> x.org == o)
    && tally.planCredits == CreditsOf(tally.granted)
  }

  predicate GoodAt(b: Books, o: OrgId)
  {
    Known(b, o) && Good(o, b.orgs[o], b.subs[o], b.tallies[o])
  }

  ghost predicate Sound(b: Books)
  {
    b.orgs.Keys == b.subs.Keys == b.tallies.Keys && forall o :: o in b.orgs ==> GoodAt(b, o)
  }

  datatype Action =
    | RegisterOrganization(id: OrgId)
    | DeliverEvent(delivery: Delivery)
    | ActivateTrialOf(id: OrgId)
    | ExpireSubscriptions
    | ResetFreeCredits
    | SendReminder(id: OrgId)
    | TopUpCredits(id: OrgId, topUp: TopUp)
    | UpdateByAdmin(id: OrgId, update: OrgUpdate)
    | TransferCredits(id: OrgId, delta: int)
    | Wait(elapsed: nat)

  function Resulting(b: Books, outcome: Outcome): Books
  {
    if outcome.Done? then outcome.next else b
  }

  function Next(b: Books, a: Action): Books
  {
    match a
    case RegisterOrganization(o) => Resulting(b, Register(b, o))
    case DeliverEvent(d) => Resulting(b, Deliver(b, d))
    case ActivateTrialOf(o) => Resulting(b, ActivateTrial(b, o))
    case ExpireSubscriptions => ExpirySweep(b)
    case ResetFreeCredits => ResetFree(b)
    case SendReminder(o) => Resulting(b, Remind(b, o))
    case TopUpCredits(o, data) => Resulting(b, TopUpOrganization(b, o, data))
    case UpdateByAdmin(o, data) => Resulting(b, UpdateOrganization(b, o, data))
    case TransferCredits(o, delta) => Resulting(b, MovePool(b, o, delta))
    case Wait(elapsed) => b.(now := b.now + elapsed)
  }

  function Run(b: Books, actions: seq<Action>): Books
  {
    if actions == [] then b else Next(Run(b, actions[..|actions| - 1]), actions[|actions| - 1])
  }

  // ---- one organization, one step ----

  /** The rows of one organization after a step, when the step succeeds for it. */
  lemma PutKeepsSound(b: Books, o: OrgId, org: Org, sub: Subscription, tally: Tally)
    requires Sound(b) && Good(o, org, sub, tally)
    ensures Sound(Put(b, o, org, sub, tally))
  {
    var t := Put(b, o, org, sub, tally);
    forall x | x in t.orgs ensures GoodAt(t, x) {
      assert x != o ==> GoodAt(b, x);
    }
  }

  lemma GrantKeepsGood(o: OrgId, org: Org, sub: Subscription, tally: Tally, x: Session, now: int)
    requires Good(o, org, sub, tally) && x.org == o
    ensures Good(o, PaidOrg(org, x), PaidSub(sub, x, now), PaidTally(tally, org, x))
  {
    assert (tally.granted + [x])[..|tally.granted|] == tally.granted;
  }

  /** Among the rows a run can reach, a session is on record only with its own organization, as the last one granted. */
  lemma ProcessedExact(b: Books, x: Session)
    requires Sound(b)
    ensures AlreadyProcessed(b, x) <==>
      x.org in b.orgs && b.tallies[x.org].granted != [] && Last(b.tallies[x.org].granted) == x
    ensures forall o :: o in b.subs && b.subs[o].external == Some(x) ==> o == x.org
  {
    forall o | o in b.subs && b.subs[o].external == Some(x) ensures o == x.org {
      assert GoodAt(b, o);
    }
    if x.org in b.orgs {
      assert GoodAt(b, x.org);
    }
  }

  lemma DeliverKeepsSound(b: Books, d: Delivery)
    requires Sound(b)
    ensures Sound(Resulting(b, Deliver(b, d)))
  {
    var x := d.session;
    if x.org in b.orgs && Deliver(b, d).Done? && Deliver(b, d).next != b {
      assert GoodAt(b, x.org);
      GrantKeepsGood(x.org, b.orgs[x.org], b.subs[x.org], b.tallies[x.org], x, b.now);
      PutKeepsSound(b, x.org, PaidOrg(b.orgs[x.org], x), PaidSub(b.subs[x.org], x, b.now),
                    PaidTally(b.tallies[x.org], b.orgs[x.org], x));
    }
  }

  lemma ExpiryKeepsSound(b: Books)
    requires Sound(b)
    ensures Sound(ExpirySweep(b))
  {
    var t := ExpirySweep(b);
    forall o | o in t.orgs ensures GoodAt(t, o) {
      assert GoodAt(b, o);
    }
  }

  lemma ResetKeepsSound(b: Books)
    requires Sound(b)
    ensures Sound(ResetFree(b))
  {
    var t := ResetFree(b);
    forall o | o in t.orgs ensures GoodAt(t, o) {
      assert GoodAt(b, o);
    }
  }

  /** The steps that write the rows of one organization. */
  lemma RowStepKeepsSound(b: Books, o: OrgId, outcome: Outcome)
    requires Sound(b)
    requires outcome.Done? ==> GoodAt(outcome.next, o)
    requires outcome.Done? ==>
      outcome.next == Put(b, o, outcome.next.orgs[o], outcome.next.subs[o], outcome.next.tallies[o])
    ensures Sound(Resulting(b, outcome))
  {
    if outcome.Done? {
      PutKeepsSound(b, o, outcome.next.orgs[o], outcome.next.subs[o], outcome.next.tallies[o]);
    }
  }

  lemma CustomerStepKeepsSound(b: Books, o: OrgId)
    requires Sound(b)
    ensures Sound(Resulting(b, Register(b, o)))
    ensures Sound(Resulting(b, ActivateTrial(b, o)))
    ensures Sound(Resulting(b, Remind(b, o)))
  {
    assert o in b.orgs ==> GoodAt(b, o);
    RowStepKeepsSound(b, o, Register(b, o));
    RowStepKeepsSound(b, o, ActivateTrial(b, o));
    RowStepKeepsSound(b, o, Remind(b, o));
  }

  lemma TopUpKeepsSound(b: Books, o: OrgId, data: TopUp)
    requires Sound(b)
    ensures Sound(Resulting(b, TopUpOrganization(b, o, data)))
  {
    assert o in b.orgs ==> GoodAt(b, o);
    RowStepKeepsSound(b, o, TopUpOrganization(b, o, data));
  }

  lemma UpdateKeepsSound(b: Books, o: OrgId, data: OrgUpdate)
    requires Sound(b)
    ensures Sound(Resulting(b, UpdateOrganization(b, o, data)))
  {
    assert o in b.orgs ==> GoodAt(b, o);
    RowStepKeepsSound(b, o, UpdateOrganization(b, o, data));
  }

  lemma TransferKeepsSound(b: Books, o: OrgId, delta: int)
    requires Sound(b)
    ensures Sound(Resulting(b, MovePool(b, o, delta)))
  {
    assert o in b.orgs ==> GoodAt(b, o);
    RowStepKeepsSound(b, o, MovePool(b, o, delta));
  }

  lemma WaitKeepsSound(b: Books, elapsed: nat)
    requires Sound(b)
    ensures Sound(b.(now := b.now + elapsed))
  {
    forall o | o in b.orgs ensures GoodAt(b.(now := b.now + elapsed), o) {
      assert GoodAt(b, o);
    }
  }

  lemma NextKeepsSound(b: Books, a: Action)
    requires Sound(b)
    ensures Sound(Next(b, a))
  {
    match a
    case RegisterOrganization(o) => CustomerStepKeepsSound(b, o);
    case DeliverEvent(d) => DeliverKeepsSound(b, d);
    case ActivateTrialOf(o) => CustomerStepKeepsSound(b, o);
    case ExpireSubscriptions => ExpiryKeepsSound(b);
    case ResetFreeCredits => ResetKeepsSound(b);
    case SendReminder(o) => CustomerStepKeepsSound(b, o);
    case TopUpCredits(o, data) => TopUpKeepsSound(b, o, data);
    case UpdateByAdmin(o, data) => UpdateKeepsSound(b, o, data);
    case TransferCredits(o, delta) => TransferKeepsSound(b, o, delta);
    case Wait(elapsed) => WaitKeepsSound(b, elapsed);
  }

  /** In every state of every run each organization's rows agree: the plan stored twice is one plan, a recorded
      payment is completed and has used up the trial, and credits frozen are those released plus those still frozen. */
  lemma {:induction false} EveryRunIsSound(b: Books, actions: seq<Action>)
    requires Sound(b)
    ensures Sound(Run(b, actions))
  {
    if actions != [] {
      EveryRunIsSound(b, actions[..|actions| - 1]);
      NextKeepsSound(Run(b, actions[..|actions| - 1]), actions[|actions| - 1]);
    }
  }

  /** In particular whatever is reached from empty tables. */
  lemma ReachableIsSound(now: int, actions: seq<Action>)
    ensures Sound(Run(Books(now, map[], map[], map[]), actions))
  {
    EveryRunIsSound(Books(now, map[], map[], map[]), actions);
  }
}

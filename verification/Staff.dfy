/** Moving credits between the organization pool and its members. */
module StaffCredits {
  import opened Totals
  import opened Store

  datatype Grant = Grant(user: UserId, credits: nat)

  function Allocate(s: State, g: Grant): Outcome
  {
    if g.user !in s.credits then Refused(NotFound)
    else if s.pool < g.credits then Refused(InsufficientPool)
    else Done(s.(pool := s.pool - g.credits, credits := Adjust(s.credits, g.user, g.credits)))
  }

  function Revoke(s: State, g: Grant): Outcome
  {
    if g.user !in s.credits then Refused(NotFound)
    else if s.credits[g.user] < g.credits then Refused(InsufficientCredits)
    else if s.credits[g.user] - PendingTotal(s.bookings, g.user) < g.credits then Refused(InsufficientCredits)
    else Done(s.(pool := s.pool + g.credits, credits := Adjust(s.credits, g.user, 0 - g.credits)))
  }

  function Sum(grants: seq<Grant>): nat
  {
    if grants == [] then 0 else Sum(grants[..|grants| - 1]) + grants[|grants| - 1].credits
  }

  /** What a list of grants, possibly naming a member several times, gives to user u. */
  function SumFor(grants: seq<Grant>, u: UserId): nat
  {
    if grants == [] then 0
    else
      var last := grants[|grants| - 1];
      SumFor(grants[..|grants| - 1], u) + if last.user == u then last.credits else 0
  }

  function Spread(credits: map<UserId, int>, grants: seq<Grant>): map<UserId, int>
  {
    map u | u in credits :: credits[u] + SumFor(grants, u)
  }

  /** One unknown member rolls the whole list back. */
  function AllocateMany(s: State, grants: seq<Grant>): Outcome
  {
    if s.pool < Sum(grants) then Refused(InsufficientPool)
    else if exists i :: 0 <= i < |grants| && grants[i].user !in s.credits then Refused(NotFound)
    else Done(s.(pool := s.pool - Sum(grants), credits := Spread(s.credits, grants)))
  }

  lemma SpreadOneMore(credits: map<UserId, int>, grants: seq<Grant>, g: Grant)
    requires g.user in credits
    ensures Adjust(Spread(credits, grants), g.user, g.credits) == Spread(credits, grants + [g])
    ensures Sum(grants + [g]) == Sum(grants) + g.credits
  {
    assert (grants + [g])[..|grants|] == grants;
  }

  /** What the pool loses is what the members gain, repeated names included. */
  lemma {:induction false} SpreadTotal(credits: map<UserId, int>, grants: seq<Grant>)
    requires forall i :: 0 <= i < |grants| ==> grants[i].user in credits
    ensures Total(Spread(credits, grants)) == Total(credits) + Sum(grants)
  {
    if grants == [] {
      assert Spread(credits, grants) == credits;
    } else {
      var init, last := grants[..|grants| - 1], grants[|grants| - 1];
      assert grants == init + [last];
      SpreadTotal(credits, init);
      SpreadOneMore(credits, init, last);
      AdjustTotal(Spread(credits, init), last.user, last.credits);
    }
  }

  // ---- the increments in another order ----

  lemma {:induction false} SumForRemove(grants: seq<Grant>, i: nat, u: UserId)
    requires i < |grants|
    ensures SumFor(grants, u)
         == SumFor(grants[..i] + grants[i + 1..], u) + if grants[i].user == u then grants[i].credits else 0
  {
    var n := |grants| - 1;
    var init, rest := grants[..n], grants[..i] + grants[i + 1..];
    if i == n {
      assert rest == init;
    } else {
      SumForRemove(init, i, u);
      assert rest[..n - 1] == init[..i] + init[i + 1..] && rest[n - 1] == grants[n];
    }
  }

  lemma TakeOut(grants: seq<Grant>, i: nat)
    requires i < |grants|
    ensures multiset(grants) == multiset(grants[..i] + grants[i + 1..]) + multiset{grants[i]}
  {
    assert grants == grants[..i] + [grants[i]] + grants[i + 1..];
  }

  lemma {:induction false} SumForOrder(grants: seq<Grant>, others: seq<Grant>, u: UserId)
    requires multiset(grants) == multiset(others)
    ensures SumFor(grants, u) == SumFor(others, u)
  {
    if grants == [] {
      assert multiset(others) == multiset{};
      assert others == [];
    } else {
      var init, last := grants[..|grants| - 1], grants[|grants| - 1];
      assert grants == init + [last];
      assert last in multiset(others);
      var i :| 0 <= i < |others| && others[i] == last;
      var rest := others[..i] + others[i + 1..];
      TakeOut(others, i);
      assert multiset(init) == multiset(grants) - multiset{last};
      assert multiset(rest) == multiset(others) - multiset{last};
      SumForOrder(init, rest, u);
      SumForRemove(others, i, u);
    }
  }

  /** The members end up with the same balances in whatever order the increments of a list run. */
  lemma OrderIsIrrelevant(credits: map<UserId, int>, grants: seq<Grant>, others: seq<Grant>)
    requires multiset(grants) == multiset(others)
    ensures Spread(credits, grants) == Spread(credits, others)
  {
    forall u | u in credits ensures SumFor(grants, u) == SumFor(others, u) {
      SumForOrder(grants, others, u);
    }
  }

  // ---- what each transfer moves ----

  /** A single allocation is accepted exactly when the member exists and the pool can pay; it moves exactly the credits
      from the pool to that member. */
  lemma AllocateExact(s: State, g: Grant)
    ensures Allocate(s, g).Done? <==> g.user in s.credits && s.pool >= g.credits
    ensures g.user !in s.credits ==> Allocate(s, g) == Refused(NotFound)
    ensures g.user in s.credits && s.pool < g.credits ==> Allocate(s, g) == Refused(InsufficientPool)
    ensures Allocate(s, g).Done? ==>
      var t := Allocate(s, g).next;
      && t == s.(pool := t.pool, credits := t.credits) && t.credits.Keys == s.credits.Keys
      && s.pool - t.pool == g.credits == t.credits[g.user] - s.credits[g.user]
      && forall u :: u in s.credits && u != g.user ==> t.credits[u] == s.credits[u]
  {
  }

  /** A revocation is accepted exactly when the credits are there besides what the member has pending; it moves exactly
      them back. */
  lemma RevokeExact(s: State, g: Grant)
    ensures Revoke(s, g).Done? <==>
      && g.user in s.credits && g.credits <= s.credits[g.user]
      && g.credits + PendingTotal(s.bookings, g.user) <= s.credits[g.user]
    ensures Revoke(s, g).Refused? ==>
      Revoke(s, g).why == if g.user in s.credits then InsufficientCredits else NotFound
    ensures Revoke(s, g).Done? ==>
      var t := Revoke(s, g).next;
      && t == s.(pool := t.pool, credits := t.credits) && t.credits.Keys == s.credits.Keys
      && t.pool - s.pool == g.credits == s.credits[g.user] - t.credits[g.user]
      && forall u :: u in s.credits && u != g.user ==> t.credits[u] == s.credits[u]
  {
  }

  /** The credits that the items of a list at the given places give to one member. */
  function Given(grants: seq<Grant>, u: UserId): nat
    decreases |grants|
  {
    if grants == [] then 0 else (if grants[0].user == u then grants[0].credits else 0) + Given(grants[1..], u)
  }

  lemma {:induction false} GivenIsSumFor(grants: seq<Grant>, u: UserId)
    ensures SumFor(grants, u) == Given(grants, u)
    decreases |grants|
  {
    if grants != [] {
      SumForRemove(grants, 0, u);
      assert grants[..0] + grants[1..] == grants[1..];
      GivenIsSumFor(grants[1..], u);
    }
  }

  /** A bulk allocation is accepted exactly when every member named exists and the pool can pay for all items; then each
      member gains what the items that name them give, and the members together what the pool loses. */
  lemma AllocateManyExact(s: State, grants: seq<Grant>)
    ensures AllocateMany(s, grants).Done? <==>
      s.pool >= Sum(grants) && forall i :: 0 <= i < |grants| ==> grants[i].user in s.credits
    ensures AllocateMany(s, grants).Refused? ==>
      AllocateMany(s, grants).why == if s.pool < Sum(grants) then InsufficientPool else NotFound
    ensures AllocateMany(s, grants).Done? ==>
      var t := AllocateMany(s, grants).next;
      && t == s.(pool := t.pool, credits := t.credits) && t.credits.Keys == s.credits.Keys
      && (forall u :: u in s.credits ==> t.credits[u] == s.credits[u] + Given(grants, u))
      && s.pool - t.pool == Total(t.credits) - Total(s.credits)
  {
    if AllocateMany(s, grants).Done? {
      SpreadTotal(s.credits, grants);
      forall u | u in s.credits ensures SumFor(grants, u) == Given(grants, u) {
        GivenIsSumFor(grants, u);
      }
    }
  }
}

module StaffService {
  import opened Store
  import opened StaffCredits

  method ManageSingleStaffCredits(db: Database, id: UserId, credits: nat) returns (reply: Reply)
    modifies db
    ensures Follows(Allocate(old(db.View()), Grant(id, credits)), old(db.View()), db.View(), reply)
  {
    if id !in db.credits {
      return Failed(NotFound);
    }
    if db.pool < credits {
      return Failed(InsufficientPool);
    }
    db.pool := db.pool - credits;
    db.credits := Adjust(db.credits, id, credits);
    return Accepted;
  }

  method RevokeStaffCredits(db: Database, id: UserId, credits: nat) returns (reply: Reply)
    modifies db
    ensures Follows(Revoke(old(db.View()), Grant(id, credits)), old(db.View()), db.View(), reply)
  {
    if id !in db.credits {
      return Failed(NotFound);
    }
    if db.credits[id] < credits {
      return Failed(InsufficientCredits);
    }
    var totalPending := PendingTotal(db.bookings, id);
    var withdrawable := db.credits[id] - totalPending;
    if withdrawable < credits {
      return Failed(InsufficientCredits);
    }
    db.pool := db.pool + credits;
    db.credits := Adjust(db.credits, id, 0 - credits);
    return Accepted;
  }

  method TotalRequired(staffCredits: seq<Grant>) returns (sum: nat)
    ensures sum == Sum(staffCredits)
  {
    sum := 0;
    for i := 0 to |staffCredits|
      invariant sum == Sum(staffCredits[..i])
    {
      assert staffCredits[..i + 1][..i] == staffCredits[..i];
      sum := sum + staffCredits[i].credits;
    }
    assert staffCredits[..|staffCredits|] == staffCredits;
  }

  method ManageMultipleStaffCredits(db: Database, staffCredits: seq<Grant>) returns (reply: Reply)
    modifies db
    ensures Follows(AllocateMany(old(db.View()), staffCredits), old(db.View()), db.View(), reply)
  {
    var totalRequired := TotalRequired(staffCredits);
    if db.pool < totalRequired {
      return Failed(InsufficientPool);
    }
    var rollback := db.credits;
    var found := IncrementAll(db, staffCredits);
    if !found {
      db.credits := rollback;
      return Failed(NotFound);
    }
    db.pool := db.pool - totalRequired;
    return Accepted;
  }

  /** The increments run concurrently: the next one is any that is still waiting. One unknown member fails them all. */
  method IncrementAll(db: Database, staffCredits: seq<Grant>) returns (found: bool)
    modifies db`credits
    ensures found <==> forall i :: 0 <= i < |staffCredits| ==> staffCredits[i].user in old(db.credits)
    ensures found ==> db.credits == Spread(old(db.credits), staffCredits)
  {
    ghost var before := db.credits;
    var waiting := staffCredits;
    ghost var done: seq<Grant> := [];
    assert Spread(before, done) == before;
    while waiting != []
      invariant multiset(done) + multiset(waiting) == multiset(staffCredits)
      invariant forall j :: 0 <= j < |done| ==> done[j].user in before
      invariant db.credits == Spread(before, done)
      decreases |waiting|
    {
      var i :| 0 <= i < |waiting|;
      var sc := waiting[i];
      assert sc in multiset(staffCredits);
      if sc.user !in db.credits {
        return false;
      }
      SpreadOneMore(before, done, sc);
      TakeOut(waiting, i);
      db.credits := Adjust(db.credits, sc.user, sc.credits);
      done := done + [sc];
      waiting := waiting[..i] + waiting[i + 1..];
    }
    OrderIsIrrelevant(before, done, staffCredits);
    forall j | 0 <= j < |staffCredits| ensures staffCredits[j].user in before {
      assert staffCredits[j] in multiset(done);
    }
    return true;
  }
}

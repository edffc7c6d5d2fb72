/** The three booking sweeps that run every minute. */
module Scheduler {
  import opened Options
  import opened Store
  import opened Bookings

  /** Foreign keys: every booking names a resource and a user of the organization. */
  ghost predicate Referential(s: State)
  {
    forall id :: id in s.bookings ==> s.bookings[id].resource in s.resources && s.bookings[id].user in s.credits
  }

  predicate Expired(b: Booking, now: int) { b.status == Pending && b.start < now }
  predicate Arrived(b: Booking, now: int) { b.status == Confirmed && b.start < now }
  predicate Finished(b: Booking, now: int) { b.status == CheckedIn && b.end < now }

  /** updateMany: every booking that satisfies the sweep's filter gets the new status. */
  function Mark(bookings: map<BookingId, Booking>, chosen: set<BookingId>, to: Status): map<BookingId, Booking>
  {
    map id | id in bookings :: if id in chosen then bookings[id].(status := to) else bookings[id]
  }

  function ExpiredIds(s: State): set<BookingId> { set id | id in s.bookings && Expired(s.bookings[id], s.now) }
  function ArrivedIds(s: State): set<BookingId> { set id | id in s.bookings && Arrived(s.bookings[id], s.now) }
  function FinishedIds(s: State): set<BookingId> { set id | id in s.bookings && Finished(s.bookings[id], s.now) }

  function CancelSweep(s: State): State
  {
    s.(bookings := Mark(s.bookings, ExpiredIds(s), Cancelled))
  }

  /** Some of the chosen bookings is on resource r. */
  predicate Touches(bookings: map<BookingId, Booking>, chosen: set<BookingId>, r: ResourceId)
  {
    exists id :: id in chosen && id in bookings && bookings[id].resource == r
  }

  /** Resource r is occupied by one of the chosen bookings on it. */
  ghost predicate OccupiedByOne(
    bookings: map<BookingId, Booking>, chosen: set<BookingId>, r: ResourceId, before: Resource, after: Resource)
  {
    exists id :: id in chosen && id in bookings && bookings[id].resource == r
              && after == before.(occupied := true, current := Some(id))
  }

  /** The per-booking resource writes race, so any arrived booking of a resource may end up as its current one. */
  ghost predicate OccupationDone(s: State, chosen: set<BookingId>, resources: map<ResourceId, Resource>)
  {
    && resources.Keys == s.resources.Keys
    && forall r :: r in resources ==>
         if Touches(s.bookings, chosen, r) then OccupiedByOne(s.bookings, chosen, r, s.resources[r], resources[r])
         else resources[r] == s.resources[r]
  }

  ghost predicate CheckInSweep(s: State, t: State)
  {
    && t == s.(bookings := Mark(s.bookings, ArrivedIds(s), CheckedIn), resources := t.resources)
    && OccupationDone(s, ArrivedIds(s), t.resources)
  }

  function ReleaseAll(s: State, chosen: set<BookingId>): map<ResourceId, Resource>
  {
    map r | r in s.resources :: if Touches(s.bookings, chosen, r) then Released(s.resources[r]) else s.resources[r]
  }

  function CompleteSweep(s: State): State
  {
    s.(bookings := Mark(s.bookings, FinishedIds(s), Completed), resources := ReleaseAll(s, FinishedIds(s)))
  }

  // ---- what each sweep does to a booking, whatever the time ----

  /** The cancel sweep cancels a booking exactly when it is pending and its start is past; it touches nothing else. */
  lemma CancelSweepExact(s: State)
    ensures var t := CancelSweep(s);
      && t == s.(bookings := t.bookings) && t.bookings.Keys == s.bookings.Keys
      && forall id :: id in s.bookings ==>
           t.bookings[id] == if s.bookings[id].status == Pending && s.bookings[id].start < s.now
                             then s.bookings[id].(status := Cancelled) else s.bookings[id]
  {
  }

  /** The check-in sweep checks a booking in exactly when it is confirmed and its start is past; it occupies exactly the
      resources of those, each with one of them. */
  lemma CheckInSweepExact(s: State, t: State)
    requires CheckInSweep(s, t)
    ensures t.now == s.now && t.pool == s.pool && t.credits == s.credits && t.charges == s.charges
    ensures t.bookings.Keys == s.bookings.Keys && t.resources.Keys == s.resources.Keys
    ensures forall id :: id in s.bookings ==>
      t.bookings[id] == if s.bookings[id].status == Confirmed && s.bookings[id].start < s.now
                        then s.bookings[id].(status := CheckedIn) else s.bookings[id]
    ensures forall r :: r in s.resources ==>
      || (t.resources[r] == s.resources[r] && forall id :: id in s.bookings && s.bookings[id].resource == r ==>
            !(s.bookings[id].status == Confirmed && s.bookings[id].start < s.now))
      || exists id :: id in s.bookings && s.bookings[id].resource == r
                   && s.bookings[id].status == Confirmed && s.bookings[id].start < s.now
                   && t.resources[r] == s.resources[r].(occupied := true, current := Some(id))
  {
    forall r | r in s.resources
      ensures
        || (t.resources[r] == s.resources[r] && forall id :: id in s.bookings && s.bookings[id].resource == r ==>
              !(s.bookings[id].status == Confirmed && s.bookings[id].start < s.now))
        || exists id :: id in s.bookings && s.bookings[id].resource == r
                     && s.bookings[id].status == Confirmed && s.bookings[id].start < s.now
                     && t.resources[r] == s.resources[r].(occupied := true, current := Some(id))
    {
      if Touches(s.bookings, ArrivedIds(s), r) {
        assert OccupiedByOne(s.bookings, ArrivedIds(s), r, s.resources[r], t.resources[r]);
      }
    }
  }

  predicate Over(b: Booking, r: ResourceId, now: int)
  {
    b.resource == r && b.status == CheckedIn && b.end < now
  }

  /** The completion sweep completes a booking exactly when it is checked in and its end is past; it frees exactly the
      resources of those. */
  lemma CompleteSweepExact(s: State)
    ensures var t := CompleteSweep(s);
      && t == s.(bookings := t.bookings, resources := t.resources)
      && t.bookings.Keys == s.bookings.Keys && t.resources.Keys == s.resources.Keys
      && (forall id :: id in s.bookings ==>
            t.bookings[id] == if s.bookings[id].status == CheckedIn && s.bookings[id].end < s.now
                              then s.bookings[id].(status := Completed) else s.bookings[id])
      && forall r :: r in s.resources ==>
           t.resources[r] == if exists id :: id in s.bookings && Over(s.bookings[id], r, s.now)
                             then s.resources[r].(occupied := false, current := None) else s.resources[r]
  {
    forall r | r in s.resources
      ensures Touches(s.bookings, FinishedIds(s), r) <==>
        exists id :: id in s.bookings && Over(s.bookings[id], r, s.now)
    {
      if id :| id in s.bookings && Over(s.bookings[id], r, s.now) {
        assert id in FinishedIds(s);
      }
    }
  }
}

module SchedulerService {
  import opened Options
  import opened Store
  import opened Bookings
  import opened Scheduler

  method AutoCancelPendingBookings(db: Database)
    modifies db
    ensures db.View() == CancelSweep(old(db.View()))
  {
    var expired := set id | id in db.bookings && Expired(db.bookings[id], db.now);
    assert expired == ExpiredIds(db.View());
    if expired == {} {
      assert db.bookings == Mark(db.bookings, expired, Cancelled);
      return;
    }
    db.bookings := Mark(db.bookings, expired, Cancelled);
  }

  method AutoCheckInConfirmedBookings(db: Database)
    requires Referential(db.View())
    modifies db
    ensures CheckInSweep(old(db.View()), db.View())
  {
    ghost var before := db.View();
    var confirmed := set id | id in db.bookings && Arrived(db.bookings[id], db.now);
    assert confirmed == ArrivedIds(before);
    if confirmed == {} {
      assert db.bookings == Mark(db.bookings, confirmed, CheckedIn);
      return;
    }
    db.bookings := Mark(db.bookings, confirmed, CheckedIn);
    OccupyResources(db, confirmed, before);
  }

  /** The concurrent resource writes: one per arrived booking, in no fixed order. */
  method OccupyResources(db: Database, confirmed: set<BookingId>, ghost before: State)
    requires confirmed <= before.bookings.Keys && Referential(before)
    requires before.resources == db.resources
    requires db.bookings.Keys == before.bookings.Keys
    requires forall id :: id in confirmed ==> db.bookings[id].resource == before.bookings[id].resource
    modifies db`resources
    ensures OccupationDone(before, confirmed, db.resources)
  {
    var waiting := confirmed;
    NobodyArrived(before);
    assert confirmed - waiting == {};
    while waiting != {}
      invariant waiting <= confirmed
      invariant OccupationDone(before, confirmed - waiting, db.resources)
      decreases |waiting|
    {
      var id :| id in waiting;
      var r := db.bookings[id].resource;
      OccupationStep(before, confirmed - waiting, id, db.resources);
      db.resources := db.resources[r := db.resources[r].(occupied := true, current := Some(id))];
      assert confirmed - waiting + {id} == confirmed - (waiting - {id});
      waiting := waiting - {id};
    }
    assert confirmed - waiting == confirmed;
  }

  lemma NobodyArrived(s: State)
    ensures OccupationDone(s, {}, s.resources)
  {
  }

  lemma OccupationStep(s: State, done: set<BookingId>, id: BookingId, prev: map<ResourceId, Resource>)
    requires id in s.bookings && s.bookings[id].resource in s.resources
    requires OccupationDone(s, done, prev)
    ensures var r := s.bookings[id].resource;
            OccupationDone(s, done + {id}, prev[r := prev[r].(occupied := true, current := Some(id))])
  {
    var r := s.bookings[id].resource;
    var next := prev[r := prev[r].(occupied := true, current := Some(id))];
    forall x | x in next
      ensures if Touches(s.bookings, done + {id}, x)
              then OccupiedByOne(s.bookings, done + {id}, x, s.resources[x], next[x])
              else next[x] == s.resources[x]
    {
      if x == r {
        assert OccupiedByOne(s.bookings, done + {id}, r, s.resources[r], next[r]);
      } else {
        assert Touches(s.bookings, done + {id}, x) <==> Touches(s.bookings, done, x);
      }
    }
  }

  method AutoCompleteCheckedInBookings(db: Database)
    requires Referential(db.View())
    modifies db
    ensures db.View() == CompleteSweep(old(db.View()))
  {
    ghost var before := db.View();
    var completed := set id | id in db.bookings && Finished(db.bookings[id], db.now);
    assert completed == FinishedIds(before);
    if completed == {} {
      assert db.bookings == Mark(db.bookings, completed, Completed);
      assert db.resources == ReleaseAll(before, completed);
      return;
    }
    db.bookings := Mark(db.bookings, completed, Completed);
    ReleaseResources(db, completed, before);
  }

  /** The loop that frees the resource of every completed booking. */
  method ReleaseResources(db: Database, completed: set<BookingId>, ghost before: State)
    requires completed <= before.bookings.Keys && Referential(before)
    requires before.resources == db.resources
    requires db.bookings.Keys == before.bookings.Keys
    requires forall id :: id in completed ==> db.bookings[id].resource == before.bookings[id].resource
    modifies db`resources
    ensures db.resources == ReleaseAll(before, completed)
  {
    var waiting := completed;
    NobodyFinished(before);
    assert completed - waiting == {};
    while waiting != {}
      invariant waiting <= completed
      invariant db.resources == ReleaseAll(before, completed - waiting)
      decreases |waiting|
    {
      var id :| id in waiting;
      var r := db.bookings[id].resource;
      ReleaseStep(before, completed - waiting, id);
      db.resources := db.resources[r := Released(db.resources[r])];
      assert completed - waiting + {id} == completed - (waiting - {id});
      waiting := waiting - {id};
    }
    assert completed - waiting == completed;
  }

  lemma NobodyFinished(s: State)
    ensures ReleaseAll(s, {}) == s.resources
  {
  }

  lemma ReleaseStep(s: State, done: set<BookingId>, id: BookingId)
    requires id in s.bookings && s.bookings[id].resource in s.resources
    ensures var r := s.bookings[id].resource;
            ReleaseAll(s, done + {id}) == ReleaseAll(s, done)[r := Released(ReleaseAll(s, done)[r])]
  {
    var r := s.bookings[id].resource;
    assert Touches(s.bookings, done + {id}, r);
    forall x | x != r ensures Touches(s.bookings, done + {id}, x) <==> Touches(s.bookings, done, x) {
    }
  }
}

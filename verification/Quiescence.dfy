/** What the three booking sweeps leave behind once every booking's time is over, while the clock goes on. */
module Quiescence {
  import opened Store
  import opened Scheduler
  import opened Invariants
  import opened SweepSafety
  import Engine

  datatype Sweep = Cancel | CheckIn | Complete | Pause(elapsed: nat)

  ghost predicate SweepStep(s: State, w: Sweep, t: State)
  {
    match w
    case Cancel => t == CancelSweep(s)
    case CheckIn => CheckInSweep(s, t)
    case Complete => t == CompleteSweep(s)
    case Pause(elapsed) => t == s.(now := s.now + elapsed)
  }

  /** The sweeps run one after the other, with pauses between them. */
  ghost predicate IsSweeping(states: seq<State>, sweeps: seq<Sweep>)
  {
    |states| == |sweeps| + 1 && forall i :: 0 <= i < |sweeps| ==> SweepStep(states[i], sweeps[i], states[i + 1])
  }

  /** Every booking's time is over. */
  ghost predicate Past(s: State)
  {
    forall id :: id in s.bookings ==> s.bookings[id].end < s.now
  }

  ghost predicate Without(s: State, status: Status)
  {
    forall id :: id in s.bookings ==> s.bookings[id].status != status
  }

  predicate Closed(status: Status)
  {
    status == Rejected || status == Cancelled || status == Completed
  }

  ghost predicate AllClosed(s: State)
  {
    forall id :: id in s.bookings ==> Closed(s.bookings[id].status)
  }

  ghost predicate NothingOccupied(s: State)
  {
    forall r :: r in s.resources ==> !s.resources[r].occupied
  }

  lemma SweepKeepsInv(s: State, w: Sweep, t: State)
    requires Inv(s) && SweepStep(s, w, t)
    ensures Inv(t) && t.credits == s.credits && t.pool == s.pool && t.charges == s.charges && t.now >= s.now
  {
    match w
    case Cancel => CancelSweepKeepsInv(s);
    case CheckIn => CheckInSweepKeepsInv(s, t);
    case Complete => CompleteSweepKeepsInv(s);
    case Pause(elapsed) => Engine.WaitKeepsInv(s, elapsed);
  }

  // ---- one booking through the sweeps ----

  /** What a sweep makes of the status of a booking whose time is over. */
  function Swept(status: Status, w: Sweep): Status
  {
    if w == Cancel && status == Pending then Cancelled
    else if w == CheckIn && status == Confirmed then CheckedIn
    else if w == Complete && status == CheckedIn then Completed
    else status
  }

  function After(status: Status, sweeps: seq<Sweep>): Status
  {
    if sweeps == [] then status else Swept(After(status, sweeps[..|sweeps| - 1]), sweeps[|sweeps| - 1])
  }

  lemma SweepMoves(s: State, w: Sweep, t: State, id: BookingId)
    requires WellFormed(s) && Past(s) && SweepStep(s, w, t)
    ensures Past(t) && t.bookings.Keys == s.bookings.Keys
    ensures id in s.bookings ==> t.bookings[id].status == Swept(s.bookings[id].status, w)
  {
  }

  /** The statuses of all bookings follow from the sweeps so far. */
  ghost predicate Follow(s: State, sweeps: seq<Sweep>, t: State)
  {
    && t.bookings.Keys == s.bookings.Keys
    && forall id :: id in s.bookings ==> t.bookings[id].status == After(s.bookings[id].status, sweeps)
  }

  lemma FollowOneMore(s: State, sweeps: seq<Sweep>, t: State, w: Sweep, u: State)
    requires Follow(s, sweeps, t) && WellFormed(t) && Past(t) && SweepStep(t, w, u)
    ensures Follow(s, sweeps + [w], u) && Past(u)
  {
    assert (sweeps + [w])[..|sweeps|] == sweeps;
    forall id ensures Past(u) && u.bookings.Keys == t.bookings.Keys
                      && (id in t.bookings ==> u.bookings[id].status == Swept(t.bookings[id].status, w)) {
      SweepMoves(t, w, u, id);
    }
  }

  ghost predicate SweptSoFar(s: State, sweeps: seq<Sweep>, t: State)
  {
    Inv(t) && Past(t) && Follow(s, sweeps, t) && t.credits == s.credits && t.pool == s.pool
  }

  lemma SweptOneMore(s: State, sweeps: seq<Sweep>, t: State, w: Sweep, u: State)
    requires SweptSoFar(s, sweeps, t) && SweepStep(t, w, u)
    ensures SweptSoFar(s, sweeps + [w], u)
  {
    SweepKeepsInv(t, w, u);
    FollowOneMore(s, sweeps, t, w, u);
  }

  /** After n sweeps: the invariants hold, no credit has moved, and the sweeps alone decide every status. */
  lemma {:induction false} SweepingFollows(states: seq<State>, sweeps: seq<Sweep>, n: nat)
    requires IsSweeping(states, sweeps) && n <= |sweeps| && Inv(states[0]) && Past(states[0])
    ensures SweptSoFar(states[0], sweeps[..n], states[n])
  {
    if n > 0 {
      SweepingFollows(states, sweeps, n - 1);
      assert SweepStep(states[n - 1], sweeps[n - 1], states[n - 1 + 1]);
      SweptOneMore(states[0], sweeps[..n - 1], states[n - 1], sweeps[n - 1], states[n]);
      assert sweeps[..n] == sweeps[..n - 1] + [sweeps[n - 1]];
    }
  }

  // ---- which sweeps close what ----

  predicate CheckedInThenCompleted(sweeps: seq<Sweep>)
  {
    exists i, j :: 0 <= i < j < |sweeps| && sweeps[i] == CheckIn && sweeps[j] == Complete
  }

  lemma OneMoreSweep(sweeps: seq<Sweep>, w: Sweep)
    ensures CheckedInThenCompleted(sweeps + [w])
       <==> CheckedInThenCompleted(sweeps) || (w == Complete && CheckIn in sweeps)
  {
    var more := sweeps + [w];
    if i, j :| 0 <= i < j < |more| && more[i] == CheckIn && more[j] == Complete {
      assert more[i] == sweeps[i];
      if j < |sweeps| {
        assert more[j] == sweeps[j];
      }
    }
    if i, j :| 0 <= i < j < |sweeps| && sweeps[i] == CheckIn && sweeps[j] == Complete {
      assert more[i] == CheckIn && more[j] == Complete;
    }
    if w == Complete && CheckIn in sweeps {
      var i :| 0 <= i < |sweeps| && sweeps[i] == CheckIn;
      assert more[i] == CheckIn && more[|sweeps|] == Complete;
    }
  }

  // Where the sweeps leave each status.

  lemma {:induction false} PendingExact(sweeps: seq<Sweep>)
    ensures After(Pending, sweeps) == if Cancel in sweeps then Cancelled else Pending
  {
    if sweeps != [] {
      PendingExact(sweeps[..|sweeps| - 1]);
      SplitLast(sweeps, Cancel);
    }
  }

  lemma {:induction false} CheckedInExact(sweeps: seq<Sweep>)
    ensures After(CheckedIn, sweeps) == if Complete in sweeps then Completed else CheckedIn
  {
    if sweeps != [] {
      CheckedInExact(sweeps[..|sweeps| - 1]);
      SplitLast(sweeps, Complete);
    }
  }

  lemma {:induction false} ConfirmedExact(sweeps: seq<Sweep>)
    ensures After(Confirmed, sweeps)
         == if CheckedInThenCompleted(sweeps) then Completed else if CheckIn in sweeps then CheckedIn else Confirmed
  {
    if sweeps != [] {
      ConfirmedExact(sweeps[..|sweeps| - 1]);
      OneMoreSweep(sweeps[..|sweeps| - 1], sweeps[|sweeps| - 1]);
      SplitLast(sweeps, CheckIn);
    }
  }

  lemma {:induction false} ClosedStays(status: Status, sweeps: seq<Sweep>)
    requires Closed(status)
    ensures After(status, sweeps) == status
  {
    if sweeps != [] {
      ClosedStays(status, sweeps[..|sweeps| - 1]);
    }
  }

  lemma SplitLast(sweeps: seq<Sweep>, w: Sweep)
    requires sweeps != []
    ensures sweeps == sweeps[..|sweeps| - 1] + [sweeps[|sweeps| - 1]]
    ensures w in sweeps <==> w in sweeps[..|sweeps| - 1] || w == sweeps[|sweeps| - 1]
  {
  }

  lemma AfterExact(status: Status, sweeps: seq<Sweep>)
    ensures Closed(After(status, sweeps)) <==>
      && (status == Pending ==> Cancel in sweeps)
      && (status == CheckedIn ==> Complete in sweeps)
      && (status == Confirmed ==> CheckedInThenCompleted(sweeps))
  {
    match status
    case Pending => PendingExact(sweeps);
    case CheckedIn => CheckedInExact(sweeps);
    case Confirmed => ConfirmedExact(sweeps);
    case _ => ClosedStays(status, sweeps);
  }

  /** The sweeps that a state needs: to cancel what is pending, to complete what is checked in, and to complete after
      checking in what is confirmed. */
  ghost predicate Enough(s: State, sweeps: seq<Sweep>)
  {
    && (Cancel in sweeps || Without(s, Pending))
    && (Complete in sweeps || Without(s, CheckedIn))
    && (CheckedInThenCompleted(sweeps) || Without(s, Confirmed))
  }

  lemma EnoughExact(s: State, sweeps: seq<Sweep>, t: State)
    requires Follow(s, sweeps, t)
    ensures AllClosed(t) <==> Enough(s, sweeps)
  {
    forall id | id in s.bookings
      ensures t.bookings[id].status == After(s.bookings[id].status, sweeps)
      ensures Closed(After(s.bookings[id].status, sweeps)) <==>
        && (s.bookings[id].status == Pending ==> Cancel in sweeps)
        && (s.bookings[id].status == CheckedIn ==> Complete in sweeps)
        && (s.bookings[id].status == Confirmed ==> CheckedInThenCompleted(sweeps))
    {
      AfterExact(s.bookings[id].status, sweeps);
    }
  }

  lemma ClosedIsFree(s: State)
    requires Inv(s) && AllClosed(s)
    ensures NothingOccupied(s)
  {
    forall r | r in s.resources ensures !s.resources[r].occupied {
      assert HonestAt(s, r);
    }
  }

  /** Sweeps in any number and order, with pauses, close every booking exactly when they are enough for what was open.
      They never move a credit. */
  lemma SweepsCloseExact(states: seq<State>, sweeps: seq<Sweep>)
    requires IsSweeping(states, sweeps) && Inv(states[0]) && Past(states[0])
    ensures var last := states[|sweeps|];
      && (AllClosed(last) <==> Enough(states[0], sweeps))
      && (AllClosed(last) ==> NothingOccupied(last))
      && last.credits == states[0].credits && last.pool == states[0].pool
  {
    SweepingFollows(states, sweeps, |sweeps|);
    assert sweeps[..|sweeps|] == sweeps;
    EnoughExact(states[0], sweeps, states[|sweeps|]);
    if AllClosed(states[|sweeps|]) {
      ClosedIsFree(states[|sweeps|]);
    }
  }

  /** A cancel sweep somewhere, and a complete sweep somewhere after a check-in sweep. */
  predicate Covers(sweeps: seq<Sweep>)
  {
    Cancel in sweeps && CheckedInThenCompleted(sweeps)
  }

  /** A covering sequence of sweeps closes every booking, frees every resource and moves no credit. */
  lemma SweepsQuiesce(states: seq<State>, sweeps: seq<Sweep>)
    requires IsSweeping(states, sweeps) && Inv(states[0]) && Past(states[0]) && Covers(sweeps)
    ensures var last := states[|sweeps|];
      && AllClosed(last) && NothingOccupied(last)
      && last.credits == states[0].credits && last.pool == states[0].pool
  {
    SweepsCloseExact(states, sweeps);
    var i, j :| 0 <= i < j < |sweeps| && sweeps[i] == CheckIn && sweeps[j] == Complete;
    assert Complete in sweeps;
  }

  /** Each of the three sweeps runs, in any order, with pauses. */
  predicate Round(sweeps: seq<Sweep>)
  {
    Cancel in sweeps && CheckIn in sweeps && Complete in sweeps
  }

  lemma TwoRoundsCover(first: seq<Sweep>, second: seq<Sweep>)
    requires Round(first) && Round(second)
    ensures Covers(first + second)
  {
    var i :| 0 <= i < |first| && first[i] == CheckIn;
    var j :| 0 <= j < |second| && second[j] == Complete;
    var both := first + second;
    assert both[i] == CheckIn && both[|first| + j] == Complete;
    assert Cancel in both;
  }

  /** Two rounds, each in any order, are enough. */
  lemma TwoRoundsQuiesce(states: seq<State>, first: seq<Sweep>, second: seq<Sweep>)
    requires Round(first) && Round(second) && IsSweeping(states, first + second)
    requires Inv(states[0]) && Past(states[0])
    ensures var last := states[|first + second|];
      && AllClosed(last) && NothingOccupied(last)
      && last.credits == states[0].credits && last.pool == states[0].pool
  {
    TwoRoundsCover(first, second);
    SweepsQuiesce(states, first + second);
  }

  /** One round closes everything exactly when it completes after checking in, or nothing was confirmed. */
  lemma OneRoundExact(states: seq<State>, sweeps: seq<Sweep>)
    requires Round(sweeps) && IsSweeping(states, sweeps)
    requires Inv(states[0]) && Past(states[0])
    ensures AllClosed(states[|sweeps|]) <==> CheckedInThenCompleted(sweeps) || Without(states[0], Confirmed)
  {
    SweepsCloseExact(states, sweeps);
  }

  // ---- idempotence at a fixed time ----

  lemma SweepsAreIdempotent(s: State, w: Sweep, t: State, u: State)
    requires SweepStep(s, w, t) && SweepStep(t, w, u) && !w.Pause?
    ensures u == t
  {
    match w
    case Cancel =>
      assert ExpiredIds(t) == {};
      assert u.bookings == t.bookings;
    case CheckIn =>
      assert ArrivedIds(t) == {};
      assert u.bookings == t.bookings;
      assert u.resources == t.resources;
    case Complete =>
      assert FinishedIds(t) == {};
      assert u.bookings == t.bookings;
      assert u.resources == t.resources;
  }
}

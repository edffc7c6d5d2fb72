/** The maintenance toggle: bulk cancellation with refunds, one booking at a time and in no fixed order. */
module Maintenance {
  import opened Totals
  import opened Store

  /** Bookings that the toggle cancels: blocking, on the resource, not ended yet. */
  function Doomed(s: State, r: ResourceId): set<BookingId>
  {
    set id | id in s.bookings && s.bookings[id].resource == r && s.bookings[id].Blocking()
          && s.bookings[id].end >= s.now
  }

  /** What cancelling b gives back to its user: the full cost when it was paid. */
  function Refund(b: Booking): int
  {
    if b.status == Confirmed && b.cost > 0 then b.cost else 0
  }

  /** One of the concurrent per-booking updates. */
  function CancelOne(s: State, id: BookingId): State
    requires id in s.bookings
  {
    var b := s.bookings[id];
    s.(bookings := s.bookings[id := b.(status := Cancelled)],
       credits := Adjust(s.credits, b.user, Refund(b)),
       charges := s.charges[id := Balance(s.charges, id) - Refund(b)])
  }

  /** Refunds owed to user u by cancelling the given bookings. */
  function RefundsOwed(bookings: map<BookingId, Booking>, ids: set<BookingId>, u: UserId): map<BookingId, int>
  {
    map id | id in ids && id in bookings :: if bookings[id].user == u then Refund(bookings[id]) else 0
  }

  function CancelledBookings(bookings: map<BookingId, Booking>, ids: set<BookingId>): map<BookingId, Booking>
  {
    map id | id in bookings :: if id in ids then bookings[id].(status := Cancelled) else bookings[id]
  }

  function OwedTo(bookings: map<BookingId, Booking>, ids: set<BookingId>, u: UserId): int
  {
    Total(RefundsOwed(bookings, ids, u))
  }

  function RefundedCredits(s: State, ids: set<BookingId>): map<UserId, int>
  {
    map u | u in s.credits :: s.credits[u] + OwedTo(s.bookings, ids, u)
  }

  function RefundedCharges(s: State, ids: set<BookingId>): map<BookingId, int>
  {
    map id | id in s.charges :: s.charges[id] - (if id in ids && id in s.bookings then Refund(s.bookings[id]) else 0)
  }

  /** The state with all of `ids` cancelled and refunded, whatever the order. */
  function CancelAll(s: State, ids: set<BookingId>): State
  {
    s.(bookings := CancelledBookings(s.bookings, ids),
       credits := RefundedCredits(s, ids),
       charges := RefundedCharges(s, ids))
  }

  lemma RefundsOwedStep(bookings: map<BookingId, Booking>, done: set<BookingId>, id: BookingId, u: UserId)
    requires id in bookings && id !in done
    ensures OwedTo(bookings, done + {id}, u)
         == OwedTo(bookings, done, u) + if bookings[id].user == u then Refund(bookings[id]) else 0
  {
    var owed := if bookings[id].user == u then Refund(bookings[id]) else 0;
    assert RefundsOwed(bookings, done + {id}, u) == RefundsOwed(bookings, done, u)[id := owed];
    TotalPut(RefundsOwed(bookings, done, u), id, owed);
  }

  lemma RefundedCreditsStep(s: State, done: set<BookingId>, id: BookingId)
    requires id in s.bookings && id !in done
    ensures Adjust(RefundedCredits(s, done), s.bookings[id].user, Refund(s.bookings[id]))
         == RefundedCredits(s, done + {id})
  {
    var b := s.bookings[id];
    forall u | u in s.credits
      ensures RefundedCredits(s, done + {id})[u] == RefundedCredits(s, done)[u] + if u == b.user then Refund(b) else 0
    {
      RefundsOwedStep(s.bookings, done, id, u);
    }
    AdjustPointwise(RefundedCredits(s, done), RefundedCredits(s, done + {id}), b.user, Refund(b));
  }

  lemma AdjustPointwise(credits: map<UserId, int>, adjusted: map<UserId, int>, user: UserId, delta: int)
    requires adjusted.Keys == credits.Keys
    requires forall u :: u in credits ==> adjusted[u] == credits[u] + if u == user then delta else 0
    ensures Adjust(credits, user, delta) == adjusted
  {
  }

  /** Cancelling one more booking extends the batch by it: the updates commute. */
  lemma CancelOneMore(s: State, done: set<BookingId>, id: BookingId)
    requires id in s.bookings && id !in done && s.charges.Keys == s.bookings.Keys
    ensures CancelOne(CancelAll(s, done), id) == CancelAll(s, done + {id})
  {
    RefundedCreditsStep(s, done, id);
    var b := s.bookings[id];
    assert CancelledBookings(s.bookings, done)[id := b.(status := Cancelled)]
        == CancelledBookings(s.bookings, done + {id});
    assert RefundedCharges(s, done)[id := s.charges[id] - Refund(b)] == RefundedCharges(s, done + {id});
  }

  lemma CancelNone(s: State)
    ensures CancelAll(s, {}) == s
  {
    forall u | u in s.credits ensures OwedTo(s.bookings, {}, u) == 0 {
      assert RefundsOwed(s.bookings, {}, u) == map[];
    }
    assert RefundedCredits(s, {}) == s.credits;
    assert CancelledBookings(s.bookings, {}) == s.bookings;
    assert RefundedCharges(s, {}) == s.charges;
  }

  // ---- the concurrent updates, write by write ----

  /** The two writes of one booking's update. What the refund pays was read before either. */
  datatype Piece = Unbook(id: BookingId) | PayBack(id: BookingId)

  /** The write `p` of the updates of `fetched`, made to the tables as they are in s. */
  function Apply(fetched: State, s: State, p: Piece): (t: State)
    requires p.id in fetched.bookings && p.id in s.bookings
    ensures t.bookings.Keys == s.bookings.Keys
  {
    match p
    case Unbook(id) => s.(bookings := s.bookings[id := s.bookings[id].(status := Cancelled)])
    case PayBack(id) =>
      var b := fetched.bookings[id];
      s.(credits := Adjust(s.credits, b.user, Refund(b)),
         charges := s.charges[id := Balance(s.charges, id) - Refund(b)])
  }

  /** Some rows marked, some refunds paid. */
  function Partly(s: State, unbooked: set<BookingId>, paid: set<BookingId>): State
  {
    s.(bookings := CancelledBookings(s.bookings, unbooked),
       credits := RefundedCredits(s, paid),
       charges := RefundedCharges(s, paid))
  }

  lemma UnbookOneMore(s: State, unbooked: set<BookingId>, paid: set<BookingId>, id: BookingId)
    requires id in s.bookings
    ensures Apply(s, Partly(s, unbooked, paid), Unbook(id)) == Partly(s, unbooked + {id}, paid)
  {
    assert CancelledBookings(s.bookings, unbooked)[id := s.bookings[id].(status := Cancelled)]
        == CancelledBookings(s.bookings, unbooked + {id});
  }

  lemma PayBackOneMore(s: State, unbooked: set<BookingId>, paid: set<BookingId>, id: BookingId)
    requires id in s.bookings && id !in paid && s.charges.Keys == s.bookings.Keys
    ensures Apply(s, Partly(s, unbooked, paid), PayBack(id)) == Partly(s, unbooked, paid + {id})
  {
    RefundedCreditsStep(s, paid, id);
    assert RefundedCharges(s, paid)[id := s.charges[id] - Refund(s.bookings[id])] == RefundedCharges(s, paid + {id});
  }

  predicate PiecesOf(s: State, pieces: seq<Piece>)
  {
    && (forall i :: 0 <= i < |pieces| ==> pieces[i].id in s.bookings)
    && (forall i, j :: 0 <= i < j < |pieces| ==> pieces[i] != pieces[j])
  }

  /** The writes made one after the other in the given order. */
  function Interleave(s: State, pieces: seq<Piece>): (t: State)
    requires PiecesOf(s, pieces)
    ensures t.bookings.Keys == s.bookings.Keys
  {
    if pieces == [] then s else Apply(s, Interleave(s, pieces[..|pieces| - 1]), pieces[|pieces| - 1])
  }

  function Unbooked(pieces: seq<Piece>): set<BookingId>
  {
    set p | p in pieces && p.Unbook? :: p.id
  }

  function PaidBack(pieces: seq<Piece>): set<BookingId>
  {
    set p | p in pieces && p.PayBack? :: p.id
  }

  lemma OnePieceMore(pieces: seq<Piece>, p: Piece)
    ensures Unbooked(pieces + [p]) == Unbooked(pieces) + if p.Unbook? then {p.id} else {}
    ensures PaidBack(pieces + [p]) == PaidBack(pieces) + if p.PayBack? then {p.id} else {}
  {
    forall q ensures q in pieces + [p] <==> q in pieces || q == p {
    }
  }

  lemma {:induction false} InterleavingIsPartial(s: State, pieces: seq<Piece>)
    requires PiecesOf(s, pieces) && s.charges.Keys == s.bookings.Keys
    ensures Interleave(s, pieces) == Partly(s, Unbooked(pieces), PaidBack(pieces))
  {
    if pieces == [] {
      CancelNone(s);
      assert Unbooked(pieces) == {} && PaidBack(pieces) == {};
    } else {
      InterleavingIsPartial(s, pieces[..|pieces| - 1]);
      LastPiece(s, pieces[..|pieces| - 1], pieces[|pieces| - 1]);
      SplitLast(pieces);
    }
  }

  lemma SplitLast(pieces: seq<Piece>)
    requires pieces != []
    ensures pieces == pieces[..|pieces| - 1] + [pieces[|pieces| - 1]]
  {
  }

  lemma LastPiece(s: State, init: seq<Piece>, last: Piece)
    requires last.id in s.bookings && s.charges.Keys == s.bookings.Keys
    requires forall i :: 0 <= i < |init| ==> init[i] != last
    ensures Apply(s, Partly(s, Unbooked(init), PaidBack(init)), last)
         == Partly(s, Unbooked(init + [last]), PaidBack(init + [last]))
  {
    NewPiece(init, last);
    OnePieceMore(init, last);
    ApplyOneMore(s, Unbooked(init), PaidBack(init), last);
  }

  lemma NewPiece(pieces: seq<Piece>, p: Piece)
    requires forall i :: 0 <= i < |pieces| ==> pieces[i] != p
    ensures p.PayBack? ==> p.id !in PaidBack(pieces)
  {
  }

  lemma ApplyOneMore(s: State, unbooked: set<BookingId>, paid: set<BookingId>, p: Piece)
    requires p.id in s.bookings && s.charges.Keys == s.bookings.Keys
    requires p.PayBack? ==> p.id !in paid
    ensures Apply(s, Partly(s, unbooked, paid), p)
         == Partly(s, unbooked + if p.Unbook? then {p.id} else {}, paid + if p.PayBack? then {p.id} else {})
  {
    match p
    case Unbook(id) =>
      UnbookOneMore(s, unbooked, paid, id);
      assert paid + {} == paid;
    case PayBack(id) =>
      PayBackOneMore(s, unbooked, paid, id);
      assert unbooked + {} == unbooked;
  }

  /** However the single writes of the updates interleave, they end in the same state. */
  lemma OrderIsIrrelevant(s: State, pieces: seq<Piece>, ids: set<BookingId>)
    requires PiecesOf(s, pieces) && s.charges.Keys == s.bookings.Keys
    requires forall id :: id in ids <==> Unbook(id) in pieces
    requires forall id :: id in ids <==> PayBack(id) in pieces
    ensures Interleave(s, pieces) == CancelAll(s, ids)
  {
    InterleavingIsPartial(s, pieces);
    assert Unbooked(pieces) == ids && PaidBack(pieces) == ids;
  }

  function Toggle(s: State, r: ResourceId, orgActive: bool): Outcome
  {
    if r !in s.resources then Refused(NotFound)
    else if !orgActive then Refused(Forbidden)
    else if s.resources[r].occupied then Refused(ResourceOccupied)
    else if s.resources[r].maintenance then
      Done(s.(resources := s.resources[r := s.resources[r].(maintenance := false)]))
    else
      Done(CancelAll(s, Doomed(s, r)).(resources := s.resources[r := s.resources[r].(maintenance := true)]))
  }
}

module ResourcesService {
  import opened Store
  import opened Maintenance

  method MarkResourceUnderMaintenance(db: Database, r: ResourceId, orgActive: bool) returns (reply: Reply)
    requires db.charges.Keys == db.bookings.Keys
    modifies db
    ensures Follows(Toggle(old(db.View()), r, orgActive), old(db.View()), db.View(), reply)
  {
    if r !in db.resources {
      return Failed(NotFound);
    }
    if !orgActive {
      return Failed(Forbidden);
    }
    var resource := db.resources[r];
    if resource.occupied {
      return Failed(ResourceOccupied);
    }
    if !resource.maintenance {
      CancelBookings(db, r);
      db.resources := db.resources[r := resource.(maintenance := true)];
    } else {
      db.resources := db.resources[r := resource.(maintenance := false)];
    }
    return Accepted;
  }

  method CancelBookings(db: Database, r: ResourceId)
    requires db.charges.Keys == db.bookings.Keys
    modifies db
    ensures db.View() == CancelAll(old(db.View()), Doomed(old(db.View()), r))
  {
    ghost var before := db.View();
    var all := set id | id in db.bookings && db.bookings[id].resource == r && db.bookings[id].Blocking()
                     && db.bookings[id].end >= db.now;
    assert all == Doomed(before, r);
    CancelEach(db, all);
  }

  /** Every update marks its booking and then pays its refund; their writes interleave at will. */
  method CancelEach(db: Database, all: set<BookingId>)
    requires db.charges.Keys == db.bookings.Keys
    requires all <= db.bookings.Keys
    modifies db
    ensures db.View() == CancelAll(old(db.View()), all)
  {
    ghost var before := db.View();
    ghost var unbooked, paid: set<BookingId> := {}, {};
    var fetched := db.bookings;
    var waiting, due: set<BookingId> := all, {};
    NothingYet(before, all);
    while waiting != {} || due != {}
      invariant paid <= unbooked <= all && waiting == all - unbooked && due == unbooked - paid
      invariant fetched == before.bookings && before.charges.Keys == fetched.Keys && all <= fetched.Keys
      invariant db.View() == Partly(before, unbooked, paid)
      decreases waiting, due
    {
      if {
        case waiting != {} =>
          var id :| id in waiting;
          MarkCancelled(db, id, before, unbooked, paid);
          waiting, due := waiting - {id}, due + {id};
          unbooked := unbooked + {id};
        case due != {} =>
          var id :| id in due;
          PayRefund(db, id, fetched[id], before, unbooked, paid);
          due := due - {id};
          paid := paid + {id};
      }
    }
    AllDone(before, unbooked, paid, all);
  }

  lemma NothingYet(s: State, all: set<BookingId>)
    ensures s == Partly(s, {}, {}) && all == all - {}
  {
    CancelNone(s);
  }

  lemma AllDone(s: State, unbooked: set<BookingId>, paid: set<BookingId>, all: set<BookingId>)
    requires paid <= unbooked <= all && {} == all - unbooked && {} == unbooked - paid
    ensures Partly(s, unbooked, paid) == CancelAll(s, all)
  {
    assert forall id :: id in all ==> id in unbooked || id in all - unbooked;
    assert unbooked == all;
    assert forall id :: id in unbooked ==> id in paid || id in unbooked - paid;
    assert paid == all;
  }

  method MarkCancelled(
    db: Database, id: BookingId,
    ghost fetched: State, ghost unbooked: set<BookingId>, ghost paid: set<BookingId>)
    requires id in fetched.bookings && db.View() == Partly(fetched, unbooked, paid)
    modifies db
    ensures db.View() == Partly(fetched, unbooked + {id}, paid)
  {
    UnbookOneMore(fetched, unbooked, paid, id);
    db.bookings := db.bookings[id := db.bookings[id].(status := Cancelled)];
    assert db.View() == Apply(fetched, old(db.View()), Unbook(id));
  }

  /** Refund a booking as it was fetched, when it was confirmed and not free. */
  method PayRefund(
    db: Database, id: BookingId, booking: Booking,
    ghost fetched: State, ghost unbooked: set<BookingId>, ghost paid: set<BookingId>)
    requires id in fetched.bookings && booking == fetched.bookings[id] && id !in paid
    requires fetched.charges.Keys == fetched.bookings.Keys && db.View() == Partly(fetched, unbooked, paid)
    modifies db
    ensures db.View() == Partly(fetched, unbooked, paid + {id})
  {
    PayBackOneMore(fetched, unbooked, paid, id);
    db.charges := db.charges[id := Balance(db.charges, id) - Refund(booking)];
    if booking.status == Confirmed && booking.cost > 0 {
      db.credits := Adjust(db.credits, booking.user, booking.cost);
    } else {
      assert Adjust(db.credits, booking.user, 0) == db.credits;
    }
    assert db.View() == Apply(fetched, old(db.View()), PayBack(id));
  }
}

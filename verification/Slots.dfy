/** The free slots that are offered for one day of a resource, and what booking them does. */
module Slots {
  import opened Options
  import opened Store
  import opened Bookings
  import opened Invariants

  datatype Slot = Slot(start: int, end: int)

  /** Opening hours of one day, in milliseconds; `step` is the slot duration. */
  datatype Window = Window(open: int, close: int, step: int)

  /** All slots from `from` on that fit before closing time. */
  function Grid(w: Window, from: int): seq<Slot>
    requires w.step > 0
    decreases w.close - from
  {
    if from + w.step > w.close then [] else [Slot(from, from + w.step)] + Grid(w, from + w.step)
  }

  /** Bookings the listing looks at: blocking rows that touch the working hours. */
  predicate Fetched(b: Booking, r: ResourceId, w: Window)
  {
    b.resource == r && b.Blocking() && b.start <= w.close && b.end >= w.open
  }

  predicate Occupied(bookings: map<BookingId, Booking>, r: ResourceId, w: Window, buffer: nat, slot: Slot)
  {
    exists id :: id in bookings && Fetched(bookings[id], r, w)
              && slot.start < bookings[id].end + buffer && slot.end > bookings[id].start - buffer
  }

  predicate Offered(s: State, r: ResourceId, w: Window, slot: Slot)
    requires r in s.resources
  {
    slot.start >= s.now && !Occupied(s.bookings, r, w, s.resources[r].buffer, slot)
  }

  function Keep(slots: seq<Slot>, p: Slot -> bool): seq<Slot>
  {
    if slots == [] then [] else (if p(slots[0]) then [slots[0]] else []) + Keep(slots[1..], p)
  }

  function ListingFrom(s: State, r: ResourceId, w: Window, from: int): seq<Slot>
    requires r in s.resources && w.step > 0
  {
    Keep(Grid(w, from), slot => Offered(s, r, w, slot))
  }

  /** The grid slots that are offered, in order. */
  function Listing(s: State, r: ResourceId, w: Window): seq<Slot>
    requires r in s.resources && w.step > 0
  {
    ListingFrom(s, r, w, w.open)
  }

  // ---- lists ----

  lemma {:induction false} KeepMembers(slots: seq<Slot>, p: Slot -> bool)
    ensures forall x :: x in Keep(slots, p) <==> x in slots && p(x)
  {
    if slots != [] {
      KeepMembers(slots[1..], p);
      assert slots == [slots[0]] + slots[1..];
    }
  }

  lemma {:induction false} KeepAgrees(slots: seq<Slot>, p: Slot -> bool, q: Slot -> bool)
    requires forall x :: x in slots ==> p(x) == q(x)
    ensures Keep(slots, p) == Keep(slots, q)
  {
    if slots != [] {
      KeepAgrees(slots[1..], p, q);
    }
  }

  lemma {:induction false} KeepTwice(slots: seq<Slot>, p: Slot -> bool, q: Slot -> bool)
    ensures Keep(Keep(slots, p), q) == Keep(slots, x => p(x) && q(x))
  {
    if slots != [] {
      KeepTwice(slots[1..], p, q);
      var rest := Keep(slots[1..], p);
      if p(slots[0]) {
        assert ([slots[0]] + rest)[1..] == rest;
      } else {
        assert [] + rest == rest;
      }
    }
  }

  lemma ListingStep(s: State, r: ResourceId, w: Window, from: int)
    requires r in s.resources && w.step > 0 && from + w.step <= w.close
    ensures var slot := Slot(from, from + w.step);
      ListingFrom(s, r, w, from)
      == (if Offered(s, r, w, slot) then [slot] else []) + ListingFrom(s, r, w, from + w.step)
  {
    var slot, rest := Slot(from, from + w.step), Grid(w, from + w.step);
    assert Grid(w, from) == [slot] + rest && ([slot] + rest)[1..] == rest;
  }

  predicate Ascending(slots: seq<Slot>)
  {
    forall i, j :: 0 <= i < j < |slots| ==> slots[i].end <= slots[j].start
  }

  lemma {:induction false} KeepAscends(slots: seq<Slot>, p: Slot -> bool)
    requires Ascending(slots)
    ensures Ascending(Keep(slots, p))
  {
    if slots != [] {
      KeepAscends(slots[1..], p);
      KeepMembers(slots[1..], p);
      var rest := Keep(slots[1..], p);
      forall j | 0 <= j < |rest| ensures slots[0].end <= rest[j].start {
        assert rest[j] in slots[1..];
      }
    }
  }

  // ---- the grid ----

  ghost predicate OnGrid(w: Window, from: int, x: Slot)
  {
    exists k: nat :: x.start == from + k * w.step && x.end == x.start + w.step && x.end <= w.close
  }

  lemma {:induction false} GridMembers(w: Window, from: int, x: Slot)
    requires w.step > 0
    ensures x in Grid(w, from) <==> OnGrid(w, from, x)
    decreases w.close - from
  {
    if from + w.step > w.close {
      forall k: nat ensures k * w.step >= 0 {
      }
    } else {
      GridMembers(w, from + w.step, x);
      GridStep(w, from, x);
    }
  }

  lemma GridStep(w: Window, from: int, x: Slot)
    requires w.step > 0 && from + w.step <= w.close
    ensures OnGrid(w, from, x) <==> x == Slot(from, from + w.step) || OnGrid(w, from + w.step, x)
  {
    if k: nat :| x.start == from + k * w.step && x.end == x.start + w.step && x.end <= w.close {
      if k > 0 {
        assert x.start == (from + w.step) + (k - 1) * w.step;
      }
    }
    if k: nat :| x.start == (from + w.step) + k * w.step && x.end == x.start + w.step && x.end <= w.close {
      assert x.start == from + (k + 1) * w.step;
    }
    if x == Slot(from, from + w.step) {
      assert x.start == from + 0 * w.step;
    }
  }

  lemma {:induction false} GridAscends(w: Window, from: int)
    requires w.step > 0
    ensures Ascending(Grid(w, from))
    ensures forall x :: x in Grid(w, from) ==> from <= x.start && x.end == x.start + w.step && x.end <= w.close
    decreases w.close - from
  {
    if from + w.step <= w.close {
      GridAscends(w, from + w.step);
      var rest := Grid(w, from + w.step);
      forall j | 0 <= j < |rest| ensures from + w.step <= rest[j].start {
        assert rest[j] in rest;
      }
    }
  }

  // ---- what the listing contains ----

  /** Exactly the grid points that fit, are not past and are free; each ends before the next begins. */
  lemma ListingExact(s: State, r: ResourceId, w: Window)
    requires r in s.resources && w.step > 0
    ensures forall x :: x in Listing(s, r, w) <==> OnGrid(w, w.open, x) && Offered(s, r, w, x)
    ensures Ascending(Listing(s, r, w))
    ensures forall x :: x in Listing(s, r, w) ==> w.open <= x.start < x.end <= w.close
  {
    var p := slot => Offered(s, r, w, slot);
    KeepMembers(Grid(w, w.open), p);
    GridAscends(w, w.open);
    KeepAscends(Grid(w, w.open), p);
    forall x ensures x in Listing(s, r, w) <==> OnGrid(w, w.open, x) && Offered(s, r, w, x) {
      GridMembers(w, w.open, x);
    }
  }

  /** A future grid slot that is not listed would be refused by createBooking, whoever asks. */
  lemma UnlistedIsRefused(s: State, r: ResourceId, w: Window, x: Slot, q: CreateRequest)
    requires r in s.resources && w.step > 0
    requires OnGrid(w, w.open, x) && x.start >= s.now && x !in Listing(s, r, w)
    requires q.resource == r && q.start == x.start && q.end == x.end
    ensures Create(s, q).Refused?
  {
    ListingExact(s, r, w);
    var id :| id in s.bookings && Fetched(s.bookings[id], r, w)
           && x.start < s.bookings[id].end + s.resources[r].buffer
           && x.end > s.bookings[id].start - s.resources[r].buffer;
    assert Conflicts(s.bookings[id], r, q.start, q.end, s.resources[r].buffer);
  }

  /** A blocking booking of the resource that lies wholly outside the working hours. */
  predicate Outside(b: Booking, r: ResourceId, w: Window)
  {
    b.resource == r && b.Blocking() && (b.start > w.close || b.end < w.open)
  }

  /** Outside bookings keep the buffer to the first and the last listed slot. */
  predicate EdgesClear(s: State, r: ResourceId, w: Window, slots: seq<Slot>)
    requires r in s.resources
  {
    slots != [] ==>
      forall id :: id in s.bookings && Outside(s.bookings[id], r, w) ==>
        && (s.bookings[id].start > w.close ==> s.bookings[id].start >= slots[|slots| - 1].end + s.resources[r].buffer)
        && (s.bookings[id].end < w.open ==> s.bookings[id].end <= slots[0].start - s.resources[r].buffer)
  }

  /** Every listed slot passes createBooking's overlap query exactly when no booking outside the working hours
      comes within the buffer of the first or the last listed slot. */
  lemma ListedIsFreeExact(s: State, r: ResourceId, w: Window)
    requires WellFormed(s) && r in s.resources && w.step > 0
    ensures var slots := Listing(s, r, w);
            EdgesClear(s, r, w, slots) <==>
            forall x :: x in slots ==> !SlotTaken(s.bookings, r, x.start, x.end, s.resources[r].buffer)
  {
    var slots := Listing(s, r, w);
    ListingExact(s, r, w);
    if EdgesClear(s, r, w, slots) {
      forall x | x in slots ensures !SlotTaken(s.bookings, r, x.start, x.end, s.resources[r].buffer) {
        ListedIsFree(s, r, w, x);
      }
    } else {
      assert slots[0] in slots && slots[|slots| - 1] in slots;
      EdgeConflict(s, r, w);
    }
  }

  lemma ListedIsFree(s: State, r: ResourceId, w: Window, x: Slot)
    requires WellFormed(s) && r in s.resources && w.step > 0
    requires var slots := Listing(s, r, w); x in slots && EdgesClear(s, r, w, slots)
    ensures !SlotTaken(s.bookings, r, x.start, x.end, s.resources[r].buffer)
  {
    var slots, buffer := Listing(s, r, w), s.resources[r].buffer;
    ListingExact(s, r, w);
    var i :| 0 <= i < |slots| && slots[i] == x;
    assert slots[0] in slots && slots[|slots| - 1] in slots;
    assert slots[0].start <= x.start && x.end <= slots[|slots| - 1].end;
    forall id | id in s.bookings ensures !Conflicts(s.bookings[id], r, x.start, x.end, buffer) {
      if s.bookings[id].resource == r && s.bookings[id].Blocking() {
        assert Fetched(s.bookings[id], r, w) || Outside(s.bookings[id], r, w);
      }
    }
  }

  lemma EdgeConflict(s: State, r: ResourceId, w: Window)
    requires WellFormed(s) && r in s.resources && w.step > 0
    requires !EdgesClear(s, r, w, Listing(s, r, w))
    ensures var slots, buffer := Listing(s, r, w), s.resources[r].buffer;
      slots != [] && var first, last := slots[0], slots[|slots| - 1];
      SlotTaken(s.bookings, r, first.start, first.end, buffer) || SlotTaken(s.bookings, r, last.start, last.end, buffer)
  {
    var slots, buffer := Listing(s, r, w), s.resources[r].buffer;
    ListingExact(s, r, w);
    var first, last := slots[0], slots[|slots| - 1];
    assert first in slots && last in slots;
    var id :| id in s.bookings && Outside(s.bookings[id], r, w)
      && ((s.bookings[id].start > w.close && s.bookings[id].start < last.end + buffer)
       || (s.bookings[id].end < w.open && s.bookings[id].end > first.start - buffer));
    assert Conflicts(s.bookings[id], r, last.start, last.end, buffer)
        || Conflicts(s.bookings[id], r, first.start, first.end, buffer);
  }

  /** No blocking booking outside the working hours comes within the buffer of them. */
  predicate HoursClear(s: State, r: ResourceId, w: Window)
    requires r in s.resources
  {
    forall id :: id in s.bookings && Outside(s.bookings[id], r, w) ==>
      && (s.bookings[id].start > w.close ==> s.bookings[id].start >= w.close + s.resources[r].buffer)
      && (s.bookings[id].end < w.open ==> s.bookings[id].end <= w.open - s.resources[r].buffer)
  }

  /** Then every listed slot passes the overlap query, whatever is listed. */
  lemma ClearHoursAgree(s: State, r: ResourceId, w: Window)
    requires WellFormed(s) && r in s.resources && w.step > 0 && HoursClear(s, r, w)
    ensures forall x :: x in Listing(s, r, w) ==> !SlotTaken(s.bookings, r, x.start, x.end, s.resources[r].buffer)
  {
    var slots := Listing(s, r, w);
    ListingExact(s, r, w);
    if slots != [] {
      assert slots[0] in slots && slots[|slots| - 1] in slots;
    }
    ListedIsFreeExact(s, r, w);
  }

  /** Without a buffer the listing and the overlap query always agree. */
  lemma NoBufferAlwaysAgrees(s: State, r: ResourceId, w: Window)
    requires WellFormed(s) && r in s.resources && w.step > 0 && s.resources[r].buffer == 0
    ensures forall x :: x in Listing(s, r, w) ==> !SlotTaken(s.bookings, r, x.start, x.end, 0)
  {
    var slots := Listing(s, r, w);
    ListingExact(s, r, w);
    if slots != [] {
      assert slots[0] in slots && slots[|slots| - 1] in slots;
    }
    ListedIsFreeExact(s, r, w);
  }

  // ---- a listed slot that is refused ----

  /** A day from 9 to 18 in slots of an hour, a buffer of an hour, and a booking one millisecond after closing time. */
  const NINE_TO_SIX := Window(9 * HOUR, 18 * HOUR, HOUR)
  const LATE := Booking(0, 0, 18 * HOUR + 1, 19 * HOUR + 1, 10, Confirmed)
  const BUFFERED := Resource(10.0, HOUR, false, false, false, None, None)
  const EVENING := State(0, 0, map[0 := 0], map[0 := BUFFERED], map[0 := LATE], map[0 := 10])

  lemma EveningInv()
    ensures Inv(EVENING)
  {
    forall u | u in EVENING.credits ensures PendingTotal(EVENING.bookings, u) <= EVENING.credits[u] {
      assert PendingCosts(map[], u) == map[];
      PendingTotalPut(map[], 0, LATE, u);
      assert EVENING.bookings == map[][0 := LATE];
    }
    assert HonestAt(EVENING, 0) && Apart(EVENING.bookings, 0, 0);
  }

  lemma ListedSlotIsRefused()
    ensures Inv(EVENING) && Slot(17 * HOUR, 18 * HOUR) in Listing(EVENING, 0, NINE_TO_SIX)
    ensures forall q: CreateRequest ::
      q.resource == 0 && q.start == 17 * HOUR && q.end == 18 * HOUR && q.guards == Guards(true, true, false, None)
      ==> Create(EVENING, q) == Refused(AlreadyBooked)
  {
    EveningInv();
    var x := Slot(17 * HOUR, 18 * HOUR);
    ListingExact(EVENING, 0, NINE_TO_SIX);
    assert x.start == NINE_TO_SIX.open + 8 * NINE_TO_SIX.step && OnGrid(NINE_TO_SIX, NINE_TO_SIX.open, x);
    assert Conflicts(EVENING.bookings[0], 0, x.start, x.end, HOUR);
  }

  // ---- booking a listed slot ----

  /** A listed slot can be booked by whoever passes the guards and can pay. */
  lemma ListedSlotBooks(s: State, q: CreateRequest, w: Window)
    requires WellFormed(s) && q.resource in s.resources && w.step > 0
    requires Slot(q.start, q.end) in Listing(s, q.resource, w)
    requires EdgesClear(s, q.resource, w, Listing(s, q.resource, w))
    requires !s.resources[q.resource].maintenance && q.guards == Guards(true, true, false, None)
    requires q.user in s.credits && q.id !in s.bookings
    requires var cost := ExactCost(q.end - q.start, s.resources[q.resource].rate);
      Integral(cost) && s.credits[q.user] as real >= cost + PendingTotal(s.bookings, q.user) as real
    ensures Create(s, q).Done?
  {
    ListingExact(s, q.resource, w);
    ListedIsFree(s, q.resource, w, Slot(q.start, q.end));
    PendingBounds(s, q.user);
  }

  /** A booking reaches the listing when it touches the working hours. */
  predicate Touches(b: Booking, w: Window)
  {
    b.start <= w.close && b.end >= w.open
  }

  /** After any booking is created, the listing is the old one without the slots that come within the buffer of it,
      when it touches the working hours, and the old one otherwise. Its own slot is not listed any more. */
  lemma RelistingDropsConflicts(s: State, q: CreateRequest, w: Window)
    requires Create(s, q).Done? && w.step > 0
    ensures var t, r, buffer := Create(s, q).next, q.resource, s.resources[q.resource].buffer;
      && Listing(t, r, w)
         == (if Touches(t.bookings[q.id], w)
             then Keep(Listing(s, r, w), (x: Slot) => !Conflicts(t.bookings[q.id], r, x.start, x.end, buffer))
             else Listing(s, r, w))
      && Slot(q.start, q.end) !in Listing(t, r, w)
  {
    var t, r := Create(s, q).next, q.resource;
    var b, buffer := t.bookings[q.id], s.resources[r].buffer;
    ListingExact(t, r, w);
    var before := (x: Slot) => Offered(s, r, w, x);
    forall x: Slot ensures Offered(t, r, w, x) <==>
      Offered(s, r, w, x) && (Touches(b, w) ==> !Conflicts(b, r, x.start, x.end, buffer))
    {
      OfferedAfter(s, q, w, x);
    }
    if Touches(b, w) {
      var clear := (x: Slot) => !Conflicts(b, r, x.start, x.end, buffer);
      KeepTwice(Grid(w, w.open), before, clear);
      KeepAgrees(Grid(w, w.open), x => Offered(t, r, w, x), x => before(x) && clear(x));
    } else {
      KeepAgrees(Grid(w, w.open), x => Offered(t, r, w, x), before);
    }
  }

  lemma OfferedAfter(s: State, q: CreateRequest, w: Window, x: Slot)
    requires Create(s, q).Done?
    ensures var t, r := Create(s, q).next, q.resource;
      Offered(t, r, w, x) <==>
        && Offered(s, r, w, x)
        && (Touches(t.bookings[q.id], w) ==>
              !Conflicts(t.bookings[q.id], r, x.start, x.end, s.resources[r].buffer))
  {
    var t, r := Create(s, q).next, q.resource;
    var buffer := s.resources[r].buffer;
    assert Fetched(t.bookings[q.id], r, w) <==> Touches(t.bookings[q.id], w);
    if Occupied(s.bookings, r, w, buffer, x) {
      var id :| id in s.bookings && Fetched(s.bookings[id], r, w)
             && x.start < s.bookings[id].end + buffer && x.end > s.bookings[id].start - buffer;
      assert t.bookings[id] == s.bookings[id];
    }
    if Occupied(t.bookings, r, w, buffer, x) {
      var id :| id in t.bookings && Fetched(t.bookings[id], r, w)
             && x.start < t.bookings[id].end + buffer && x.end > t.bookings[id].start - buffer;
      assert id == q.id || t.bookings[id] == s.bookings[id];
    }
  }
}

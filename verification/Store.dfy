/** The tables one organization's booking engine reads and writes. Times are milliseconds. */
module Store {
  import opened Options
  import opened Totals

  type UserId = nat
  type ResourceId = nat
  type BookingId = nat

  const HOUR := 3_600_000

  datatype Status = Pending | Confirmed | Rejected | Cancelled | Completed | CheckedIn

  datatype Booking = Booking(user: UserId, resource: ResourceId, start: int, end: int, cost: int, status: Status) {
    /** The two statuses that the conflict queries look at. */
    predicate Blocking() { status == Pending || status == Confirmed }
  }

  /** A resource's rules. Days number from Sunday, 0; no days means every day; maximum hours 0 means no maximum. */
  datatype Rules = Rules(
    weekendAllowed: bool, days: set<int>, maxHours: real, leadHours: real,
    opening: Option<nat>, closing: Option<nat>, slotMinutes: nat)

  /** `buffer` is the rules' buffer time in milliseconds, 0 without rules. */
  datatype Resource = Resource(
    rate: real,
    buffer: nat,
    autoConfirm: bool,
    maintenance: bool,
    occupied: bool,
    current: Option<BookingId>,
    rules: Option<Rules>)

  datatype Error =
    | OverPlanLimit | InvalidSlot | NotFound | ForeignResource | UnderMaintenance | AlreadyBooked | InsufficientCredits
    | ClosedOnWeekends | ClosedThatDay | TooLong | TooSoon
    | NotIntegral | Forbidden | NotReschedulable | ResourceOccupied | InsufficientPool | DuplicateKey

  /** A whole database state. `charges` is history: what each booking's user has paid and not got back. */
  datatype State = State(
    now: int,
    pool: int,
    credits: map<UserId, int>,
    resources: map<ResourceId, Resource>,
    bookings: map<BookingId, Booking>,
    charges: map<BookingId, int>)

  /** What a service call does to the state: a thrown error changes nothing. */
  datatype Outcome = Done(next: State) | Refused(why: Error)

  datatype Reply = Accepted | Failed(error: Error)

  function Balance(credits: map<UserId, int>, u: UserId): int
  {
    if u in credits then credits[u] else 0
  }

  /** increment / decrement of one user's personal_credits */
  function Adjust(credits: map<UserId, int>, u: UserId, delta: int): map<UserId, int>
  {
    if u in credits then credits[u := credits[u] + delta] else credits
  }

  /** What booking b contributes to the credits user u has waiting for confirmation. */
  function PendingShare(b: Booking, u: UserId): int
  {
    if b.status == Pending && b.user == u then b.cost else 0
  }

  function PendingCosts(bookings: map<BookingId, Booking>, u: UserId): map<BookingId, int>
  {
    map id | id in bookings :: PendingShare(bookings[id], u)
  }

  /** The aggregate `_sum: { total_cost }` over a user's PENDING bookings. */
  function PendingTotal(bookings: map<BookingId, Booking>, u: UserId): int
  {
    Total(PendingCosts(bookings, u))
  }

  lemma PendingTotalPut(bookings: map<BookingId, Booking>, id: BookingId, b: Booking, u: UserId)
    ensures PendingTotal(bookings[id := b], u)
         == PendingTotal(bookings, u)
          - (if id in bookings then PendingShare(bookings[id], u) else 0) + PendingShare(b, u)
  {
    assert PendingCosts(bookings[id := b], u) == PendingCosts(bookings, u)[id := PendingShare(b, u)];
    TotalPut(PendingCosts(bookings, u), id, PendingShare(b, u));
  }

  lemma PendingTotalDrop(bookings: map<BookingId, Booking>, id: BookingId, u: UserId)
    requires id in bookings
    ensures PendingTotal(bookings - {id}, u) == PendingTotal(bookings, u) - PendingShare(bookings[id], u)
  {
    assert PendingCosts(bookings - {id}, u) == PendingCosts(bookings, u) - {id};
    TotalDrop(PendingCosts(bookings, u), id);
  }

  lemma AdjustTotal(credits: map<UserId, int>, u: UserId, delta: int)
    requires u in credits
    ensures Total(Adjust(credits, u, delta)) == Total(credits) + delta
  {
    var balance := credits[u] + delta;
    assert Adjust(credits, u, delta) == credits[u := balance];
    TotalPut(credits, u, balance);
  }

  class Database {
    var now: int
    var pool: int
    var credits: map<UserId, int>
    var resources: map<ResourceId, Resource>
    var bookings: map<BookingId, Booking>
    ghost var charges: map<BookingId, int>

    ghost function View(): State
      reads this
    {
      State(now, pool, credits, resources, bookings, charges)
    }

    /** A new organization: staff and resources, no booking yet. */
    constructor (now: int, pool: int, credits: map<UserId, int>, resources: map<ResourceId, Resource>)
      ensures View() == State(now, pool, credits, resources, map[], map[])
    {
      this.now := now;
      this.pool := pool;
      this.credits := credits;
      this.resources := resources;
      this.bookings := map[];
      this.charges := map[];
    }
  }

  /** A method did what the outcome says: the new state, or an error and the old state. */
  ghost predicate Follows(outcome: Outcome, before: State, after: State, reply: Reply)
  {
    match outcome
    case Done(next) => reply == Accepted && after == next
    case Refused(e) => reply == Failed(e) && after == before
  }
}

/**
 * The booking endpoints: the reserve orchestration and its error mapping,
 * the paging arithmetic of the listing, the None-to-404 mapping of confirm
 * and cancel, and the admin guard of the sweep endpoint.
 */
module BookingApi {
  import opened Wrappers
  import opened Decimal
  import opened Models
  import opened Stores
  import opened BookingDao
  import opened Http

  // ------------------------------------------------------------------ reserve

  /** The calls inside the reserve handler's `try` body that can raise (a
      lost database or Redis connection, a failed commit). `LockRelease` is
      the release before the 400; a raising release deletes nothing. */
  datatype Step = AvailabilityQuery | LockAcquire | OwnerLookup | BookingInsert | LockRelease

  /** What the surroundings do to one reserve request: nothing, an exception
      from one of the calls, or another writer changing the ticket's status
      between the handler's availability check and the one inside
      `create_booking`. */
  datatype Mishap =
    | Smooth
    | RaisesAt(step: Step, message: string)
    | TicketMarked(status: TicketStatus)

  predicate RaisesDuring(m: Mishap, s: Step) {
    m.RaisesAt? && m.step == s
  }

  const NotAvailable: string := "Ticket not found or not available"
  const HeldByAnother: string := "Ticket is currently being booked by another user"
  const CannotReserve: string := "Unable to reserve ticket at this time"
  const InsertFailed: string := "Failed to create booking"
  const CreateErrorPrefix: string := "Error creating booking: "

  /** The availability query: the ticket row exists and is `available`. */
  predicate Bookable(ts: seq<Ticket>, t: TicketId) {
    1 <= t <= |ts| && ts[t - 1].status == TicketAvailable
  }

  /** The 409 detail. `if lock_owner and ...` reads an owner of 0 as no
      owner at all. */
  function ConflictDetail(owner: Option<UserId>, caller: UserId): (d: string)
    ensures d == HeldByAnother <==> owner.Some? && owner.value != 0 && owner.value != caller
    ensures d == HeldByAnother || d == CannotReserve
  {
    if owner.Some? && owner.value != 0 && owner.value != caller then HeldByAnother else CannotReserve
  }

  /** How the `try` body of `create_booking` ends: it returns a booking,
      raises an `HTTPException`, or is interrupted by another exception.
      `lockTaken` records whether the lock had been acquired by then. */
  datatype Exit =
    | Returned(booking: Booking)
    | Raised(code: int, detail: string)
    | Crashed(message: string, lockTaken: bool)

  /** Whether a request gets as far as holding the lock. */
  predicate Acquires(ts: seq<Ticket>, locks: map<string, string>, t: TicketId, m: Mishap) {
    && !RaisesDuring(m, AvailabilityQuery)
    && Bookable(ts, t)
    && !RaisesDuring(m, LockAcquire)
    && LockKey(t) !in locks
  }

  /** Where the `try` body stops when it never holds the lock. */
  function EarlyExit(ts: seq<Ticket>, locks: map<string, string>, t: TicketId, caller: UserId, m: Mishap): (e: Exit)
    requires !Acquires(ts, locks, t, m)
    ensures e.Crashed? ==> !e.lockTaken && m.RaisesAt?
    ensures e.Raised? ==> e.code == 404 || e.code == 409
    ensures e.Raised? && e.code == 404 <==> !RaisesDuring(m, AvailabilityQuery) && !Bookable(ts, t)
    ensures e.Raised? && e.code == 409 ==> Bookable(ts, t) && LockKey(t) in locks
  {
    if RaisesDuring(m, AvailabilityQuery) then Crashed(m.message, false)
    else if !Bookable(ts, t) then Raised(404, NotAvailable)
    else if RaisesDuring(m, LockAcquire) then Crashed(m.message, false)
    else if RaisesDuring(m, OwnerLookup) then Crashed(m.message, false)
    else
      var stored := if LockKey(t) in locks then Some(locks[LockKey(t)]) else None;
      Raised(409, ConflictDetail(OwnerOfValue(stored), caller))
  }

  /** The ticket table as `create_booking` re-reads it. */
  function TicketsAtInsert(ts: seq<Ticket>, t: TicketId, m: Mishap): (r: seq<Ticket>)
    requires 1 <= t <= |ts|
    ensures |r| == |ts|
    ensures !m.TicketMarked? ==> r == ts
    ensures Bookable(r, t) <==> if m.TicketMarked? then m.status == TicketAvailable else Bookable(ts, t)
  {
    if m.TicketMarked? then ts[t - 1 := ts[t - 1].(status := m.status)] else ts
  }

  /** The message a successful reserve emits. */
  function CreatedEvent(b: Booking, user: User): Event {
    Event(BookingCreated, PrepareBookingData(b), PrepareUserData(user))
  }

  /** The `try` body of `create_booking`, step by step: availability query,
      lock acquisition, owner lookup on failure, insertion, release when the
      insertion finds the ticket gone, and the `booking_created` event. */
  method ReserveSteps(dao: BookingDao, t: TicketId, user: User, now: Time, m: Mishap) returns (e: Exit)
    requires dao.Valid()
    modifies dao.db, dao.redis, dao.producer
    ensures dao.Valid()
    ensures dao.db.shows == old(dao.db.shows) && dao.db.users == old(dao.db.users)
    ensures !Acquires(old(dao.db.tickets), old(dao.redis.data), t, m) ==>
      && e == EarlyExit(old(dao.db.tickets), old(dao.redis.data), t, user.id, m)
      && dao.db.bookings == old(dao.db.bookings) && dao.db.tickets == old(dao.db.tickets)
      && dao.redis.data == old(dao.redis.data) && dao.producer.sent == old(dao.producer.sent)
    ensures Acquires(old(dao.db.tickets), old(dao.redis.data), t, m) ==>
      && dao.db.tickets == TicketsAtInsert(old(dao.db.tickets), t, m)
      && AfterAcquire(e, old(dao.db.bookings), dao.db.bookings, old(dao.redis.data), dao.redis.data,
                      old(dao.producer.sent), dao.producer.sent, Bookable(dao.db.tickets, t), t, user, now, m)
    ensures old(Guarded(dao.db.bookings, dao.redis.data)) ==> Guarded(dao.db.bookings, dao.redis.data)
  {
    var early := TryAcquire(dao, t, user, m);
    if early.Some? {
      return early.value;
    }
    assert dao.redis.data - {LockKey(t)} == old(dao.redis.data);
    e := InsertReservation(dao, dao.db.tickets[t - 1], t, user, now, m);
  }

  /** The steps of the `try` body up to and including the lock: the exit
      taken when the lock is not obtained, or `None` once it is held. */
  method TryAcquire(dao: BookingDao, t: TicketId, user: User, m: Mishap) returns (early: Option<Exit>)
    requires dao.Valid()
    modifies dao.redis
    ensures early.Some? <==> !Acquires(dao.db.tickets, old(dao.redis.data), t, m)
    ensures early.Some? ==>
      early.value == EarlyExit(dao.db.tickets, old(dao.redis.data), t, user.id, m) && dao.redis.data == old(dao.redis.data)
    ensures early.None? ==> dao.redis.data == old(dao.redis.data)[LockKey(t) := IntToString(user.id)]
  {
    if RaisesDuring(m, AvailabilityQuery) {
      return Some(Crashed(m.message, false));
    }
    var ticket := dao.db.FindTicket(t);
    if ticket.None? || ticket.value.status != TicketAvailable {
      return Some(Raised(404, NotAvailable));
    }
    if RaisesDuring(m, LockAcquire) {
      return Some(Crashed(m.message, false));
    }
    var acquired := dao.AcquireTicketLock(t, user.id);
    if !acquired {
      if RaisesDuring(m, OwnerLookup) {
        return Some(Crashed(m.message, false));
      }
      var owner := dao.GetTicketLockOwner(t);
      return Some(Raised(409, ConflictDetail(owner, user.id)));
    }
    early := None;
  }

  /** What happens once the lock is held: the insert raises (the lock stays),
      the insert finds the ticket gone (the lock is released, 400, unless
      the release itself raises, which leaves the lock), or the reservation
      is inserted and announced. */
  ghost predicate AfterAcquire(e: Exit, bs: seq<Booking>, bs': seq<Booking>, locks: map<string, string>,
                               locks': map<string, string>, sent: seq<Event>, sent': seq<Event>,
                               bookable: bool, t: TicketId, user: User, now: Time, m: Mishap)
  {
    if RaisesDuring(m, BookingInsert) then
      && e == Crashed(m.message, true)
      && bs' == bs && locks' == locks[LockKey(t) := IntToString(user.id)] && sent' == sent
    else if !bookable && RaisesDuring(m, LockRelease) then
      && e == Crashed(m.message, true)
      && bs' == bs && locks' == locks[LockKey(t) := IntToString(user.id)] && sent' == sent
    else if !bookable then
      && e == Raised(400, InsertFailed)
      && bs' == bs && locks' == locks && sent' == sent
    else
      var b := NewReservation(|bs| + 1, user.id, t, now);
      && e == Returned(b)
      && bs' == bs + [b] && locks' == locks[LockKey(t) := IntToString(user.id)]
      && sent' == sent + [CreatedEvent(b, user)]
  }

  /** The part of the `try` body after the lock was acquired. */
  method InsertReservation(dao: BookingDao, ticket: Ticket, t: TicketId, user: User, now: Time, m: Mishap)
    returns (e: Exit)
    requires dao.Valid()
    requires 1 <= t <= |dao.db.tickets| && dao.db.tickets[t - 1] == ticket
    requires LockKey(t) in dao.redis.data && dao.redis.data[LockKey(t)] == IntToString(user.id)
    modifies dao.db, dao.redis, dao.producer
    ensures dao.Valid()
    ensures dao.db.shows == old(dao.db.shows) && dao.db.users == old(dao.db.users)
    ensures dao.db.tickets == TicketsAtInsert(old(dao.db.tickets), t, m)
    ensures AfterAcquire(e, old(dao.db.bookings), dao.db.bookings, old(dao.redis.data) - {LockKey(t)},
                         dao.redis.data, old(dao.producer.sent), dao.producer.sent,
                         Bookable(dao.db.tickets, t), t, user, now, m)
    ensures old(Guarded(dao.db.bookings, dao.redis.data - {LockKey(t)})) ==> Guarded(dao.db.bookings, dao.redis.data)
  {
    ghost var locks0 := dao.redis.data - {LockKey(t)};
    assert dao.redis.data == locks0[LockKey(t) := IntToString(user.id)];
    if m.TicketMarked? {
      dao.db.UpdateTicket(t - 1, ticket.(status := m.status));
    }
    if RaisesDuring(m, BookingInsert) {
      if Guarded(dao.db.bookings, locks0) {
        assert LocksCoverReservations(dao.db.bookings, dao.redis.data);
      }
      return Crashed(m.message, true);
    }
    var created := dao.CreateBooking(t, user.id, now);
    if created.None? {
      if RaisesDuring(m, LockRelease) {
        if Guarded(dao.db.bookings, locks0) {
          assert LocksCoverReservations(dao.db.bookings, dao.redis.data);
        }
        return Crashed(m.message, true);
      }
      var _ := dao.ReleaseTicketLock(t);
      assert dao.redis.data == locks0;
      return Raised(400, InsertFailed);
    }
    if Guarded(old(dao.db.bookings), locks0) {
      ReserveKeepsGuarded(old(dao.db.bookings), locks0, created.value);
    }
    dao.SendBookingEvent(BookingCreated, created.value, user);
    e := Returned(created.value);
  }

  /** `create_booking` with the exception handler as written: any exception
      that is not an `HTTPException` releases the ticket's lock, whether or
      not this request ever acquired it, and becomes a 500. */
  method CreateBookingAsWritten(dao: BookingDao, t: TicketId, user: User, now: Time, m: Mishap)
    returns (r: Response<Booking>)
    requires dao.Valid()
    modifies dao.db, dao.redis, dao.producer
    ensures dao.Valid()
    ensures dao.db.shows == old(dao.db.shows) && dao.db.users == old(dao.db.users)
    ensures !m.TicketMarked? ==> dao.db.tickets == old(dao.db.tickets)
    ensures r.Ok? <==> Acquires(old(dao.db.tickets), old(dao.redis.data), t, m) && !RaisesDuring(m, BookingInsert)
                       && Bookable(TicketsAtInsert(old(dao.db.tickets), t, m), t)
    ensures r.Ok? ==> ReservedFor(r.value, old(dao.db.bookings), dao.db.bookings, old(dao.redis.data),
                               dao.redis.data, old(dao.producer.sent), dao.producer.sent, t, user, now)
    ensures r.Failure? ==> dao.db.bookings == old(dao.db.bookings) && dao.producer.sent == old(dao.producer.sent)
    ensures r.Failure? && r.code != 500 ==> dao.redis.data == old(dao.redis.data)
    ensures r.Failure? && r.code == 500 ==> dao.redis.data == old(dao.redis.data) - {LockKey(t)}
    ensures RaisesDuring(m, AvailabilityQuery) ==> r == Failure(500, CreateErrorPrefix + m.message)
    ensures r.Failure? ==> r.code in {400, 404, 409, 500}
    ensures r.Failure? && r.code == 404 <==> !RaisesDuring(m, AvailabilityQuery) && !Bookable(old(dao.db.tickets), t)
    ensures r.Failure? && r.code == 409 ==>
      LockKey(t) in old(dao.redis.data) && r.detail == ConflictDetail(old(dao.LockOwner(t)), user.id)
    ensures r.Failure? && r.code == 400 ==> !Bookable(dao.db.tickets, t)
    ensures r.Failure? && r.code == 500 ==> m.RaisesAt? && r.detail == CreateErrorPrefix + m.message
    ensures Acquires(old(dao.db.tickets), old(dao.redis.data), t, m) && RaisesDuring(m, LockRelease)
            && !Bookable(TicketsAtInsert(old(dao.db.tickets), t, m), t) ==>
      r == Failure(500, CreateErrorPrefix + m.message)
  {
    var e := ReserveSteps(dao, t, user, now, m);
    match e
    case Returned(b) =>
      OwnerOfStoredValue(user.id);
      r := Ok(b);
    case Raised(code, detail) =>
      r := Failure(code, detail);
    case Crashed(message, _) =>
      var _ := dao.ReleaseTicketLock(t);
      r := Failure(500, CreateErrorPrefix + message);
  }

  /** `create_booking` with the handler releasing the lock only when this
      request acquired it. Every failure then leaves bookings, locks and
      events as they were, and the lock/reservation invariant is kept. */
  method CreateBooking(dao: BookingDao, t: TicketId, user: User, now: Time, m: Mishap)
    returns (r: Response<Booking>)
    requires dao.Valid()
    modifies dao.db, dao.redis, dao.producer
    ensures dao.Valid()
    ensures dao.db.shows == old(dao.db.shows) && dao.db.users == old(dao.db.users)
    ensures !m.TicketMarked? ==> dao.db.tickets == old(dao.db.tickets)
    ensures r.Ok? <==> Acquires(old(dao.db.tickets), old(dao.redis.data), t, m) && !RaisesDuring(m, BookingInsert)
                       && Bookable(TicketsAtInsert(old(dao.db.tickets), t, m), t)
    ensures r.Ok? ==> ReservedFor(r.value, old(dao.db.bookings), dao.db.bookings, old(dao.redis.data),
                               dao.redis.data, old(dao.producer.sent), dao.producer.sent, t, user, now)
    ensures r.Failure? ==>
      && dao.db.bookings == old(dao.db.bookings) && dao.redis.data == old(dao.redis.data)
      && dao.producer.sent == old(dao.producer.sent)
    ensures r.Failure? ==> r.code in {400, 404, 409, 500}
    ensures r.Failure? && r.code == 404 <==> !RaisesDuring(m, AvailabilityQuery) && !Bookable(old(dao.db.tickets), t)
    ensures r.Failure? && r.code == 409 ==>
      LockKey(t) in old(dao.redis.data) && r.detail == ConflictDetail(old(dao.LockOwner(t)), user.id)
    ensures r.Failure? && r.code == 400 ==> !Bookable(dao.db.tickets, t)
    ensures r.Failure? && r.code == 500 ==> m.RaisesAt? && r.detail == CreateErrorPrefix + m.message
    ensures Acquires(old(dao.db.tickets), old(dao.redis.data), t, m) && RaisesDuring(m, LockRelease)
            && !Bookable(TicketsAtInsert(old(dao.db.tickets), t, m), t) ==>
      r == Failure(500, CreateErrorPrefix + m.message)
    ensures Evolves(old(dao.db.bookings), dao.db.bookings)
    ensures old(Guarded(dao.db.bookings, dao.redis.data)) ==> Guarded(dao.db.bookings, dao.redis.data)
  {
    var e := ReserveSteps(dao, t, user, now, m);
    match e
    case Returned(b) =>
      OwnerOfStoredValue(user.id);
      r := Ok(b);
    case Raised(code, detail) =>
      r := Failure(code, detail);
    case Crashed(message, lockTaken) =>
      if lockTaken {
        var _ := dao.ReleaseTicketLock(t);
      }
      r := Failure(500, CreateErrorPrefix + message);
  }

  /** A successful reserve: one new `reserved` booking for the caller and
      the ticket, due `BookingTtl` seconds from now, appended to the table;
      the lock held by the caller; `booking_created` emitted. */
  ghost predicate ReservedFor(b: Booking, bs: seq<Booking>, bs': seq<Booking>, locks: map<string, string>,
                           locks': map<string, string>, sent: seq<Event>, sent': seq<Event>,
                           t: TicketId, user: User, now: Time)
  {
    && b.status == Reserved && b.userId == user.id && b.ticketId == t
    && b.expiresAt == now + BookingTtl && b.id == |bs| + 1
    && bs' == bs + [b]
    && LockKey(t) !in locks && locks' == locks[LockKey(t) := IntToString(user.id)]
    && OwnerOfValue(Some(locks'[LockKey(t)])) == Some(user.id)
    && sent' == sent + [CreatedEvent(b, user)]
  }

  /** Three users ask for one ticket in turn under the handler as written.
      A reserves; B's request raises at its first query, and the handler
      deletes the lock A holds; C then finds the lock free and reserves too.
      Two reservations stand on one ticket. */
  method StolenLockAsWritten() returns (bookings: seq<Booking>)
    ensures |bookings| == 2
    ensures bookings[0].status == Reserved && bookings[1].status == Reserved
    ensures bookings[0].ticketId == bookings[1].ticketId
    ensures !SingleReservation(bookings)
  {
    var dao, a, b, c := ThreeBuyers();
    var ra := CreateBookingAsWritten(dao, 1, a, 0, Smooth);
    var rb := CreateBookingAsWritten(dao, 1, b, 1, RaisesAt(AvailabilityQuery, "connection lost"));
    var rc := CreateBookingAsWritten(dao, 1, c, 2, Smooth);
    bookings := dao.db.bookings;
    assert bookings[0].id == 1 && bookings[1].id == 2;
  }

  /** The same three requests under the corrected handler: B's failure
      leaves A's lock alone and C is turned away with a 409. */
  method StolenLockCorrected() returns (bookings: seq<Booking>, third: Response<Booking>)
    ensures |bookings| == 1 && bookings[0].status == Reserved
    ensures third.Failure? && third.code == 409
    ensures SingleReservation(bookings)
  {
    var dao, a, b, c := ThreeBuyers();
    var ra := CreateBooking(dao, 1, a, 0, Smooth);
    var rb := CreateBooking(dao, 1, b, 1, RaisesAt(AvailabilityQuery, "connection lost"));
    third := CreateBooking(dao, 1, c, 2, Smooth);
    bookings := dao.db.bookings;
  }

  /** One available ticket, no locks, and three distinct buyers. */
  method ThreeBuyers() returns (dao: BookingDao, a: User, b: User, c: User)
    ensures fresh(dao) && fresh(dao.db) && fresh(dao.redis) && fresh(dao.producer)
    ensures dao.Valid() && dao.redis.data == map[] && dao.db.bookings == []
    ensures dao.db.tickets == [Ticket(1, None, TicketAvailable, 100, "A-001")]
    ensures a.id == 1 && b.id == 2 && c.id == 3
  {
    var db := new Database([Ticket(1, None, TicketAvailable, 100, "A-001")], map[]);
    var redis := new LockStore();
    var producer := new EventProducer();
    dao := new BookingDao(db, redis, producer);
    a := User(1, "a", "a@example.com", []);
    b := User(2, "b", "b@example.com", []);
    c := User(3, "c", "c@example.com", []);
  }

  // ------------------------------------------------------- confirm and cancel

  const ConfirmNotFound: string := "Booking not found or cannot be confirmed"
  const CancelNotFound: string := "Booking not found or cannot be cancelled"

  /** `confirm_booking`: a returned booking is passed through, `None`
      becomes a 404. */
  method ConfirmBookingEndpoint(dao: BookingDao, bid: BookingId, user: User, now: Time) returns (r: Response<Booking>)
    requires dao.Valid()
    modifies dao.db, dao.redis, dao.producer
    ensures dao.Valid()
    ensures r.Ok? <==>
      ReservationIn(old(dao.db.bookings), bid, user.id).Some? && now <= old(dao.db.bookings[bid - 1].expiresAt)
    ensures r.Ok? ==>
      && 1 <= bid <= |dao.db.bookings| && r.value == dao.db.bookings[bid - 1] && r.value.userId == user.id
      && r.value.status == Confirmed && r.value.confirmedAt == Some(now)
      && LockKey(r.value.ticketId) !in dao.redis.data
    ensures r.Failure? ==> r == Failure(404, ConfirmNotFound)
    ensures Evolves(old(dao.db.bookings), dao.db.bookings)
    ensures old(Guarded(dao.db.bookings, dao.redis.data)) ==> Guarded(dao.db.bookings, dao.redis.data)
  {
    var booking := dao.ConfirmBooking(bid, user.id, now);
    if booking.None? {
      return Failure(404, ConfirmNotFound);
    }
    r := Ok(booking.value);
  }

  /** `cancel_booking`: a returned booking is passed through, `None`
      becomes a 404. */
  method CancelBookingEndpoint(dao: BookingDao, bid: BookingId, user: User, now: Time) returns (r: Response<Booking>)
    requires dao.Valid()
    modifies dao.db, dao.redis, dao.producer
    ensures dao.Valid()
    ensures r.Ok? <==> ReservationIn(old(dao.db.bookings), bid, user.id).Some?
    ensures r.Ok? ==>
      && 1 <= bid <= |dao.db.bookings| && r.value == dao.db.bookings[bid - 1] && r.value.userId == user.id
      && r.value.status == Cancelled && r.value.cancelledAt == Some(now)
      && LockKey(r.value.ticketId) !in dao.redis.data
    ensures r.Failure? ==> r == Failure(404, CancelNotFound)
    ensures dao.db.tickets == old(dao.db.tickets)
    ensures Evolves(old(dao.db.bookings), dao.db.bookings)
    ensures old(Guarded(dao.db.bookings, dao.redis.data)) ==> Guarded(dao.db.bookings, dao.redis.data)
  {
    var booking := dao.CancelBooking(bid, user.id, now);
    if booking.None? {
      return Failure(404, CancelNotFound);
    }
    r := Ok(booking.value);
  }

  // ------------------------------------------------------------------ sweep

  const AdminsOnly: string := "Only admins can perform this action"
  const CleanedUp: string := "Expired bookings cleaned up successfully"

  /** `any(role.name == "admin" for role in current_user.roles)`. */
  predicate IsAdmin(user: User)
    ensures IsAdmin(user) <==> "admin" in user.roles
  {
    exists k :: 0 <= k < |user.roles| && user.roles[k] == "admin"
  }

  /** `cleanup_expired_bookings`: admins only; the sweep otherwise. */
  method CleanupExpiredEndpoint(dao: BookingDao, user: User, now: Time) returns (r: Response<string>)
    requires dao.Valid()
    modifies dao.db, dao.redis
    ensures dao.Valid()
    ensures !IsAdmin(user) ==>
      && r == Failure(403, AdminsOnly)
      && dao.db.bookings == old(dao.db.bookings) && dao.redis.data == old(dao.redis.data)
    ensures IsAdmin(user) ==>
      && r == Ok(CleanedUp)
      && dao.db.bookings == ExpireOverdue(old(dao.db.bookings), now)
      && dao.redis.data == old(dao.redis.data) - OverdueLockKeys(old(dao.db.bookings), now)
    ensures dao.db.tickets == old(dao.db.tickets)
    ensures old(Guarded(dao.db.bookings, dao.redis.data)) ==> Guarded(dao.db.bookings, dao.redis.data)
  {
    var admin := false;
    var k := 0;
    while k < |user.roles|
      invariant 0 <= k <= |user.roles|
      invariant admin <==> exists j :: 0 <= j < k && user.roles[j] == "admin"
    {
      if user.roles[k] == "admin" {
        admin := true;
      }
      k := k + 1;
    }
    if !admin {
      return Failure(403, AdminsOnly);
    }
    dao.CleanupExpiredBookings(now);
    r := Ok(CleanedUp);
  }

  // --------------------------------------------------------------- listing

  /** `skip = (page - 1) * limit`. */
  function Skip(page: int, limit: int): (s: nat)
    requires page >= 1 && limit >= 1
    ensures page == 1 ==> s == 0
    ensures s + limit == page * limit
  {
    MulSucc(page - 1, limit);
    (page - 1) * limit
  }

  /** `ceil(total_count / limit)`, or 1 for no bookings. */
  function TotalPages(total: nat, limit: int): (p: int)
    requires limit >= 1
    ensures p >= 1
  {
    if total > 0 then (total + limit - 1) / limit else 1
  }

  /** At least one page; for a non-empty list the pages hold the bookings
      with the last page partly or exactly full. */
  lemma TotalPagesBounds(total: nat, limit: int)
    requires limit >= 1
    ensures TotalPages(total, limit) >= 1
    ensures total == 0 ==> TotalPages(total, limit) == 1
    ensures total > 0 ==> (TotalPages(total, limit) - 1) * limit < total <= TotalPages(total, limit) * limit
  {
    if total > 0 {
      var p := TotalPages(total, limit);
      DivBounds(total + limit - 1, limit);
      assert p * limit <= total + limit - 1 < p * limit + limit;
    }
  }

  /** Euclidean division brackets its dividend. */
  lemma DivBounds(n: nat, d: int)
    requires d >= 1
    ensures (n / d) * d <= n < (n / d) * d + d
  {
  }

  /** Each of the user's bookings sits on exactly one page within range: the
      `k`-th (0-based) is on page `k / limit + 1`. */
  lemma EveryBookingOnSomePage(total: nat, limit: int, k: nat)
    requires limit >= 1 && k < total
    ensures var p := k / limit + 1;
      && 1 <= p <= TotalPages(total, limit)
      && Skip(p, limit) <= k < Skip(p, limit) + limit
    ensures forall p :: p >= 1 && Skip(p, limit) <= k < Skip(p, limit) + limit ==> p == k / limit + 1
  {
    var p := k / limit + 1;
    DivBounds(k, limit);
    assert Skip(p, limit) == (k / limit) * limit;
    TotalPagesBounds(total, limit);
    var tp := TotalPages(total, limit);
    MulCancel(tp, p - 1, limit);
    forall q | q >= 1 && Skip(q, limit) <= k < Skip(q, limit) + limit
      ensures q == p
    {
      PagesDisjoint(p, q, limit, k);
    }
  }

  /** Two pages that both hold position `k` are the same page. */
  lemma PagesDisjoint(p: int, q: int, limit: int, k: int)
    requires p >= 1 && q >= 1 && limit >= 1
    requires (p - 1) * limit <= k < (p - 1) * limit + limit
    requires (q - 1) * limit <= k < (q - 1) * limit + limit
    ensures p == q
  {
    MulCancel(q, p - 2, limit);
    MulSucc(p - 1, limit);
    MulSucc(q - 1, limit);
    MulCancel(p, q - 2, limit);
  }

  lemma MulCancel(a: int, b: int, c: int)
    requires c >= 1
    ensures a * c > b * c ==> a > b
  {
    if a <= b {
      MulMonotone(a, b, c);
    }
  }

  lemma MulMonotone(a: int, b: int, c: int)
    requires a <= b && c >= 0
    ensures a * c <= b * c
  {
  }

  lemma MulSucc(a: int, c: int)
    ensures a * c + c == (a + 1) * c
  {
  }

  /** `BookingListResponse`. */
  datatype BookingList = BookingList(totalCount: nat, currentPage: int, totalPages: int, data: seq<Booking>)

  /** `list_user_bookings`; `page >= 1` and `0 < limit <= 100` are checked
      by the query parameters before the handler runs. */
  function ListUserBookings(dao: BookingDao, user: User, page: int, limit: int): (r: BookingList)
    requires page >= 1 && 1 <= limit <= 100
    reads dao, dao.db
    ensures r.totalCount == |BookingsOf(dao.db.bookings, user.id)| && r.currentPage == page
    ensures r.totalPages >= 1
    ensures r.totalCount > 0 ==> (r.totalPages - 1) * limit < r.totalCount <= r.totalPages * limit
    ensures |r.data| <= limit
    ensures |r.data| == Min(Skip(page, limit) + limit, r.totalCount) - Min(Skip(page, limit), r.totalCount)
    ensures forall k :: 0 <= k < |r.data| ==>
      Skip(page, limit) + k < |SortNewestFirst(BookingsOf(dao.db.bookings, user.id))|
      && r.data[k] == SortNewestFirst(BookingsOf(dao.db.bookings, user.id))[Skip(page, limit) + k]
    ensures forall b :: b in r.data ==> b in dao.db.bookings && b.userId == user.id
    ensures NewestFirst(r.data)
  {
    var total := dao.CountUserBookings(user.id);
    TotalPagesBounds(total, limit);
    BookingList(total, page, TotalPages(total, limit), dao.GetUserBookings(user.id, Skip(page, limit), limit))
  }

  /** Paging loses nothing: the `k`-th booking of the user's newest-first
      listing is in the data of page `k / limit + 1`, a page within
      `total_pages`. */
  lemma EveryBookingListed(dao: BookingDao, user: User, limit: int, k: nat)
    requires 1 <= limit <= 100 && k < |BookingsOf(dao.db.bookings, user.id)|
    ensures var p := k / limit + 1;
      var listed := ListUserBookings(dao, user, p, limit);
      && p <= listed.totalPages
      && SortNewestFirst(BookingsOf(dao.db.bookings, user.id))[k] in listed.data
  {
    var p := k / limit + 1;
    var listed := ListUserBookings(dao, user, p, limit);
    EveryBookingOnSomePage(listed.totalCount, limit, k);
    var j := k - Skip(p, limit);
    assert 0 <= j < |listed.data|;
    assert listed.data[j] == SortNewestFirst(BookingsOf(dao.db.bookings, user.id))[k];
  }
}

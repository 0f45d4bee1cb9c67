# Ticket booking engine, modelled in Dafny

This project models the booking lifecycle of the `ticket-booking` service, a
FastAPI application backed by SQLAlchemy, Redis and Kafka. Its parts are:

- **Ticket lock.** The per-ticket Redis lock is acquired with `SET NX` on the
  key `ticket_lock:{ticket_id}`. The stored value is `str(user_id)`. It is
  released with an unconditional `DEL` and read back with `int(...)`.
- **Booking state machine.** A booking starts `reserved` and moves to one of
  `confirmed`, `cancelled` or `expired`. Confirm sells the ticket to the
  caller; cancel leaves the ticket alone.
- **Expiry sweep.** The sweep expires every overdue reservation and deletes
  its lock.
- **Reserve endpoint.** The handler checks availability, takes the lock,
  inserts, releases on failure and emits an event. Its HTTP error mapping is
  modelled too.
- **Other endpoints.** Paging arithmetic for the listing, the 404 mapping of
  confirm and cancel, and the admin guard of the sweep endpoint.
- **Show creation.** Ticket classes expand into ticket rows with seats
  `Class-NNN`. The total is summed and a zero total is rejected.

Layout, one module per file, following the source:

- `decimal.dfy`: Python's `str(int)`, `int(str)` and `{n:03d}`.
- `models.dfy`: the enums and row types.
- `stores.dfy`: the tables, the Redis keyspace and the Kafka producer as state.
- `booking_dao.dfy`: `BookingDAO`.
- `booking_api.dfy`: the booking router.
- `show_dao.dfy`: `ShowDAO`.
- `show_api.dfy`: the show router.
- `http.dfy`: the response type.
- `wrappers.dfy`: `Option`.

How the state is represented:

- **Tables are sequences.** A row's id is its position plus one, because ids
  are autoincrement and the core never deletes a row.
- **The Redis keyspace is a `map<string, string>`.** It is kept with the
  real key and value strings rather than as a map from ticket to user. That
  way the owner lookup's parse of the stored text is part of the model.
- **The Kafka producer is a ghost log of the messages handed to it.**
- **The clock is a parameter `now`, read once per operation.**

The model also carries one invariant, `BookingDao.Guarded`. It has two parts:

- every `reserved` booking's ticket lock is present and names that booking's
  user;
- at most one booking per ticket is `reserved`.

Confirm, cancel, the sweep and the corrected reserve handler are proved to
preserve it. The reserve handler as written does not preserve it (see
Findings). The invariant holds in the model only because model locks never
expire. Real locks carry a 600 s TTL that starts before `expires_at` is set,
so the limits below apply (see Left out).

## Model

| member | source | states |
|---|---|---|
| Decimal.ParseIntOfIntToString | daos/booking.py:27-48 | `int(str(u)) == u` for every integer, so the lock's stored text reads back as the same user |
| Decimal.ParseInt | daos/booking.py:46-50 | on ASCII text: parsing succeeds exactly on an optional minus sign followed by at least one ASCII digit, and gives `None` where Python's `int()` raises `ValueError`, which `get_ticket_lock_owner` turns into `None` |
| Decimal.IntToString | daos/booking.py:29 | `str(i)` starts with `-` iff `i` is negative; together with `Decimal.ParseIntOfIntToString` it is inverted by `int()` |
| Decimal.IntToStringInjective | daos/booking.py:29 | distinct users store distinct lock values |
| Decimal.ZeroPad | daos/show.py:26 | `{n:03d}` gives exactly `width` characters when `n` has fewer digits and otherwise the bare digits, all of them digits, which read back as `n` |
| Decimal.ZeroPadWidth | daos/show.py:26 | a number below `10^width` is padded to exactly `width` characters |
| Decimal.ToDecimalShort | daos/show.py:26 | a number below `10^w` has at most `w` decimal digits |
| Models.ParseBookingStatus | models/booking.py:7-11 | a parsed status has the given string as its value |
| Models.ParseBookingStatusOfValue | models/booking.py:7-11 | every status reads back from its string value |
| Stores.LockStore.SetIfAbsent | daos/booking.py:27-32 | `SET NX`: stores the value and reports true iff the key was absent, and leaves the map unchanged otherwise |
| Stores.LockStore.Delete | daos/booking.py:39 | `DEL`: removes the key and returns 1 iff it was present |
| Stores.LockStore.Get | daos/booking.py:45 | `GET`: returns the stored value iff the key is present |
| Stores.EventProducer.Send | daos/booking.py:134 | the producer's log gains exactly the one message, at its end |
| Stores.Database.FindTicket | daos/booking.py:155 | the ticket row exists iff the id is between 1 and the table size |
| BookingDao.LockKeyParts | daos/booking.py:24 | a lock key is `ticket_lock:` followed by text that `int()` reads back as the ticket id |
| BookingDao.LockKeyInjective | daos/booking.py:24 | distinct tickets have distinct lock keys |
| BookingDao.OwnerOfValue | daos/booking.py:46-50 | an owner is found only in a non-empty stored value, and is `int` of it; a missing or empty value gives `None` |
| BookingDao.OwnerOfStoredValue | daos/booking.py:29-48 | `get_ticket_lock_owner` on the value `acquire_ticket_lock` stored returns that user |
| BookingDao.PrepareBookingData | daos/booking.py:107-118 | the payload carries the booking's id, user, ticket, status value (which reads back as the status) and all four timestamps, `None` exactly where the booking has none |
| BookingDao.PrepareUserData | daos/booking.py:120-126 | the payload carries the user's id, name and email |
| BookingDao.NewReservation | daos/booking.py:65-73 | the new row is `reserved`, of the given user and ticket, with no confirmation or cancellation time, and is overdue exactly after `now + 600` |
| BookingDao.BookingDataRoundTrip | daos/booking.py:107-118 | an event's booking payload determines the booking completely |
| BookingDao.TerminalIsFinal | daos/booking.py:142 | across any lawful evolution of the table, a confirmed, cancelled or expired booking never changes again |
| BookingDao.UpdateEvolves | daos/booking.py:147 | rewriting one row by a lifecycle step is a lawful evolution of the table |
| BookingDao.EvolvesTransitive | daos/booking.py:142 | two lawful evolutions in a row are one, so a booking leaves `reserved` at most once |
| BookingDao.FilterOverdue | daos/booking.py:202-207 | a booking is listed iff it is in the table, `reserved`, and `expires_at < now`; with no such booking the list is empty |
| BookingDao.ExpireOverdueSpec | daos/booking.py:209-221 | the sweep expires exactly the overdue bookings and leaves every other row unchanged |
| BookingDao.ExpireOverdueIdempotent | daos/booking.py:202-221 | after a sweep nothing is overdue, and a second sweep at the same instant changes no row and deletes no lock |
| BookingDao.ExpireOverdueEvolves | daos/booking.py:209-221 | the sweep is a lawful evolution of the table |
| BookingDao.ExpireListedOverdue | daos/booking.py:211-218 | expiring the listed overdue rows one by one gives the sweep's table |
| BookingDao.LockKeysOfOverdue | daos/booking.py:211-218 | the locks the loop deletes are exactly the overdue bookings' ticket locks |
| BookingDao.BookingsOf | daos/booking.py:99-105 | the user's rows are exactly the table's rows with that `user_id` |
| BookingDao.BookingsOfCounts | daos/booking.py:99-105 | each row with that `user_id` is kept as often as the table holds it, and no other row is kept |
| BookingDao.InsertNewestFirstPerm | daos/booking.py:101 | inserting a row into an ordered listing adds exactly that row |
| BookingDao.InsertNewestFirstBounded | daos/booking.py:101 | insertion introduces no creation time later than those of the row and the listing |
| BookingDao.InsertNewestFirstSpec | daos/booking.py:101 | inserting a row keeps a listing newest first and adds just that row |
| BookingDao.SortNewestFirstSpec | daos/booking.py:101 | the listing is ordered by `created_at` descending and is a permutation of the user's rows |
| BookingDao.Window | daos/booking.py:101 | `offset(skip).limit(limit)` returns exactly `min(skip + limit, n) - min(skip, n)` rows of an `n`-row listing, the `k`-th being row `skip + k` |
| BookingDao.UserPageSpec | daos/booking.py:97-101 | a page holds exactly `min(skip + limit, n) - min(skip, n)` of the user's `n` bookings, the `k`-th being the booking at position `skip + k` of the user's newest-first listing; so all are the user's, newest first |
| BookingDao.ReserveKeepsGuarded | api/booking.py:46-63 | a reservation inserted after its lock was free and then taken keeps the lock/reservation invariant |
| BookingDao.FinishKeepsGuarded | daos/booking.py:161-198 | moving a reservation to a terminal state and deleting its ticket's lock keeps the invariant |
| BookingDao.ExpireInPlaceKeepsGuarded | daos/booking.py:146-149 | expiring a reservation without touching the locks keeps the invariant |
| BookingDao.SweepKeepsGuarded | daos/booking.py:209-221 | the sweep keeps the invariant: in the model, where locks never expire, every lock it deletes belonged to a reservation it expires |
| BookingDao.ReservationIn | daos/booking.py:140-143 | the shared guard of confirm and cancel holds iff some row has that id, belongs to the caller and is `reserved` |
| BookingDao.SellTo | daos/booking.py:155-158 | confirm's ticket update: the ticket becomes `sold` and is held by the caller, no other ticket changes, and a missing ticket is skipped |
| BookingDao.Notice | daos/booking.py:168-169 | one event is emitted iff the user's row exists |
| BookingDao.BookingDao.AcquireTicketLock | daos/booking.py:22-34 | succeeds iff the ticket had no lock key; on success the owner lookup then gives the caller; on failure the keyspace is unchanged |
| BookingDao.BookingDao.ReleaseTicketLock | daos/booking.py:36-40 | deletes the key whoever holds it and reports whether it existed, so a second release reports false |
| BookingDao.BookingDao.GetTicketLockOwner | daos/booking.py:42-51 | the owner is `int` of a non-empty stored value, or `None` for a missing or empty value or one that is not an optionally signed run of ASCII digits |
| BookingDao.BookingDao.CountUserBookings | daos/booking.py:103-105 | the count is the length of `BookingDao.BookingsOf`, so by `BookingDao.BookingsOfCounts` it counts each row with that `user_id` once per occurrence and no other row. It equals the length of the user's newest-first listing and is at most the table size |
| BookingDao.BookingDao.GetBookingById | daos/booking.py:81-86 | a booking is found iff a row has that id and the caller's `user_id` |
| BookingDao.BookingDao.GetUserBookings | daos/booking.py:97-101 | exactly `min(skip + limit, count) - min(skip, count)` bookings, the `k`-th being the booking at position `skip + k` of the caller's newest-first listing |
| BookingDao.BookingDao.CreateBooking | daos/booking.py:53-79 | with the ticket missing or not `available`: `None`, nothing inserted. Otherwise exactly one row is appended: `reserved`, the given user and ticket, `expires_at = now + 600` |
| BookingDao.BookingDao.SendBookingEvent | daos/booking.py:128-136 | appends one message with the event type and the booking and user payloads |
| BookingDao.BookingDao.ConfirmBooking | daos/booking.py:138-174 | three cases. Guard fails: `None`, nothing changes. Reserved with `now > expires_at`: `None`, the booking becomes `expired`, and the ticket, the lock and the events are untouched. Otherwise: the ticket is sold to the caller, the booking is `confirmed` at `now`, the lock is deleted, and `booking_confirmed` is emitted iff the user exists. The invariant is kept |
| BookingDao.BookingDao.ExpireReserved | daos/booking.py:146-149 | a late confirm marks the booking `expired` and changes nothing else, the lock included; a lawful step that keeps the invariant |
| BookingDao.BookingDao.ConfirmReserved | daos/booking.py:151-174 | the success path of confirm, with the same effects as above |
| BookingDao.BookingDao.SellTicket | daos/booking.py:155-158 | the booked ticket's row, when it exists, becomes `sold` to the caller; no other row changes |
| BookingDao.BookingDao.Finish | daos/booking.py:161-172 | the finished row replaces the reservation, the event is sent iff the user exists, the ticket's lock is deleted; a lawful step that keeps the invariant |
| BookingDao.BookingDao.CancelBooking | daos/booking.py:176-200 | guard fails: `None`, nothing changes. Otherwise the booking is `cancelled` at `now` whatever its deadline, the lock is deleted, `booking_cancelled` is emitted iff the user exists, and the ticket is never touched. The invariant is kept |
| BookingDao.BookingDao.CancelReserved | daos/booking.py:184-198 | the success path of cancel: the booking is `cancelled` at `now`, with the shared finishing steps |
| BookingDao.BookingDao.GetExpiredBookings | daos/booking.py:202-207 | a booking is listed iff it is `reserved` and strictly past its deadline |
| BookingDao.BookingDao.ExpireEach | daos/booking.py:213-218 | the loop expires each listed booking and deletes the locks of exactly the listed tickets |
| BookingDao.BookingDao.ExpireOne | daos/booking.py:215-218 | one round of the sweep sets the listed booking's row to `expired` and deletes its ticket's lock |
| BookingDao.BookingDao.CleanupExpiredBookings | daos/booking.py:209-221 | the table becomes the sweep of the old table and the keyspace loses exactly the overdue tickets' locks; tickets untouched; the invariant is kept |
| BookingApi.ConflictDetail | api/booking.py:48-60 | the "another user" message iff the owner is present, non-zero (Python truthiness) and not the caller; the "unable to reserve" message otherwise |
| BookingApi.EarlyExit | api/booking.py:33-60 | without the lock: 404 exactly when the availability query ran and found no available ticket; 409 only when the lock key is present; any crash here happened with no lock taken |
| BookingApi.TicketsAtInsert | daos/booking.py:56-62 | `create_booking` re-reads the ticket table and sees the ticket available unless it was re-marked after the handler's check |
| BookingApi.TryAcquire | api/booking.py:33-60 | returns early, with the keyspace unchanged, iff no lock is obtained; otherwise the caller's lock is the only change |
| BookingApi.ReserveSteps | api/booking.py:32-76 | the `try` body. Without the lock, nothing changes. With it, three outcomes. The insert raises: the lock stays. The insert finds the ticket gone: the lock is released and 400 is raised, unless the release itself raises, in which case the lock stays and the exception goes on. Otherwise one reservation is appended and `booking_created` is emitted. The invariant is kept |
| BookingApi.InsertReservation | api/booking.py:62-76 | the `try` body after the lock is taken, as above |
| BookingApi.CreateBookingAsWritten | api/booking.py:23-86 | the same status mapping as the corrected handler: 404 iff the ticket was unavailable, 409 only when the lock is present with the message by owner, 400 only when the ticket was gone at insert, 500 only for an exception and with its text, a release that raises before the 400 included. Success iff the lock was obtained and the insert went through. A 500 leaves the keyspace minus this ticket's lock, whoever held it; other failures change nothing |
| BookingApi.CreateBooking | api/booking.py:23-86 | corrected handler. Every failure leaves bookings, locks and events unchanged. 404 iff the ticket was unavailable; 409 only when the lock is present, with the message by owner; 400 only when the ticket was gone at insert; 500 only for an exception, including a release that raises before the 400. Success appends a `reserved` booking due in 600 s, the caller holds the lock, `booking_created` is emitted, and the invariant is kept |
| BookingApi.StolenLockAsWritten | api/booking.py:78-86 | a concrete run ending with two `reserved` bookings on one ticket |
| BookingApi.StolenLockCorrected | api/booking.py:78-86 | the same run under the corrected handler: the third request gets 409 and one reservation stands |
| BookingApi.ConfirmBookingEndpoint | api/booking.py:153-180 | the booking is returned iff it was the caller's, `reserved` and not past its deadline; it is then `confirmed` at `now`, with its lock gone. Otherwise 404 "Booking not found or cannot be confirmed" |
| BookingApi.CancelBookingEndpoint | api/booking.py:183-210 | the booking is returned iff it was the caller's and `reserved`; it is then `cancelled`, with its lock gone and the tickets unchanged. Otherwise 404 "Booking not found or cannot be cancelled" |
| BookingApi.CleanupExpiredEndpoint | api/booking.py:213-236 | without the `admin` role: 403, no booking or lock touched. With it: the sweep, and the success message |
| BookingApi.Skip | api/booking.py:100 | page 1 starts at offset 0, and page `p` ends at `p * limit` |
| BookingApi.TotalPages | api/booking.py:102 | at least one page; the bounds are in `BookingApi.TotalPagesBounds` |
| BookingApi.IsAdmin | api/booking.py:220 | true iff some role is named `admin` |
| BookingApi.TotalPagesBounds | api/booking.py:102 | `total_pages >= 1`, it is 1 for no bookings, and otherwise `(total_pages - 1) * limit < total_count <= total_pages * limit` |
| BookingApi.EveryBookingOnSomePage | api/booking.py:99-102 | the `k`-th booking lies on page `k / limit + 1`, which is within `1..total_pages`, and on no other page |
| BookingApi.EveryBookingListed | api/booking.py:99-105 | the caller's `k`-th booking, newest first, is in the data of page `k / limit + 1`, and that page is at most `total_pages` |
| BookingApi.PagesDisjoint | api/booking.py:100 | two pages whose offset windows share a position are the same page |
| BookingApi.ListUserBookings | api/booking.py:89-112 | the total counts the caller's bookings; the page count bounds the total as above; the data has exactly `min(skip + limit, total) - min(skip, total)` bookings, the `k`-th being the booking at position `skip + k` of the caller's newest-first listing |
| ShowDao.SeatLabel | daos/show.py:26 | a seat starts with the class name and a dash, followed by at least three characters |
| ShowDao.SeatLabelParts | daos/show.py:26 | a seat is the class name, a dash, and at least three digits reading back as the seat number |
| ShowDao.SeatLabelInjective | daos/show.py:26 | within a class, equal seats have equal numbers |
| ShowDao.SeatLabelLength | daos/show.py:26 | seats 1 to 999 carry exactly three digits |
| ShowDao.ClassTickets | daos/show.py:24 | one class yields `quantity` tickets, none for a non-positive quantity |
| ShowDao.ClassTicketsAt | daos/show.py:24-32 | the `i`-th ticket of a class has seat number `i + 1`, the class price, the show id, no holder and status `available` |
| ShowDao.ClassTicketsUpToAt | daos/show.py:24-32 | after `n` rounds of the inner loop, the `i`-th added ticket is the one round `i` builds |
| ShowDao.ClassSeatsDistinct | daos/show.py:24-26 | within one class the seats are numbered from 1 and pairwise distinct |
| ShowDao.ExpandTicketsAppend | daos/show.py:23-33 | tickets come grouped by class, in input order: expanding `a + b` gives the tickets of `a`, then those of `b` |
| ShowDao.ExpandTicketsShape | daos/show.py:27-31 | every created ticket is `available`, unheld, of the new show, and is the `i`-th ticket of one input class |
| ShowDao.ShowDao.CreateShowWithTickets | daos/show.py:10-37 | one show with the next id, with `total_tickets = available_tickets =` the argument and the request's fields; the ticket table grows by exactly the expansion of the classes |
| ShowDao.ShowDao.AddTickets | daos/show.py:23-33 | the outer loop appends the classes' tickets in order |
| ShowDao.ShowDao.AddNextClass | daos/show.py:23-32 | one round of the outer loop appends class `k`'s tickets after those of the classes before it |
| ShowDao.ShowDao.AddClassTickets | daos/show.py:24-33 | the inner loop appends one class's tickets |
| ShowApi.TotalTickets | api/show.py:13-14 | with the non-negative quantities the schema demands (schemas/show.py:11), the sum is non-negative |
| ShowApi.TotalTicketsCountsTickets | api/show.py:13-14 | with non-negative quantities the sum equals the number of tickets created |
| ShowApi.TotalTicketsZero | api/show.py:13-15 | with non-negative quantities the total is 0 iff every class has quantity 0, the empty list included |
| Http.ExceptionText | api/show.py:27 | `str(HTTPException)` is the status code's decimal text, `: ` and the detail |
| ShowApi.ShowErrorAsWritten | api/show.py:24-27 | as written, every exception, an `HTTPException` included, becomes 500 "Error creating show: " followed by its text |
| ShowApi.ShowError | api/show.py:24-27 | corrected: an `HTTPException` passes through with its code and detail, and a database error becomes 500 with its message |
| ShowApi.CreateShowSteps | api/show.py:12-23 | the `try` body. Zero total: 400 raised, nothing written. Database error: nothing kept. Otherwise the show with the exact total is created together with its tickets |
| ShowApi.ZeroTotalBecomes500 | api/show.py:15-27 | as written, the zero-total 400 surfaces as 500 "Error creating show: 400: At least one ticket must be created" |
| ShowApi.CreateShowAsWritten | api/show.py:10-27 | every failure is a 500 and writes nothing; a zero total gives the 500 above; success iff the total is non-zero and no database error occurs |
| ShowApi.CreateShow | api/show.py:10-27 | 400 iff every quantity is 0; 500 iff a database error strikes a non-empty show; failures write nothing. Success creates the show with `total_tickets = available_tickets =` the positive sum and exactly that many new tickets |

## Left out

- Redis key TTL: locks stay until deleted. The 600 s hold is modelled only as the booking's `expires_at`. Hence the expired-confirm path, which leaves the lock in place, would in the real system be cleared by the TTL.
- BookingDao.Guarded and BookingDao.SweepKeepsGuarded hold only because model locks never expire. In the source the lock is set with `ex=600` before `expires_at` is computed, so it expires no later than the booking falls due. From then until the sweep, a second user can take the lock and reserve the same ticket: two `reserved` bookings, under the corrected handler too. The sweep's unconditional `DEL` then deletes the new holder's lock along with the overdue reservation.
- Concurrency and `async` interleavings. Requests run one after another; the cross-process race the lock exists for is not modelled. The one interleaving that matters sequentially, another writer changing the ticket between the handler's check and the DAO's re-check, is the `TicketMarked` mishap.
- Connections, sessions and `close_redis_connection`. `refresh`, `flush` and `commit` are folded into the writes they finish.
- BookingApi.ReserveSteps, BookingApi.CreateBookingAsWritten and BookingApi.CreateBooking model the `BookingInsert` exception as striking before the row is written. In the source, `refresh(booking)` (daos/booking.py:77) can raise after the `commit` (:76). The handler's `except Exception` then deletes the lock and answers 500 (api/booking.py:80-86), but the committed `reserved` row stays without a lock. That breaks `BookingDao.Guarded`, and it breaks the claim that every failure leaves the bookings unchanged, under the corrected handler too. The model has no after-commit exception.
- Kafka delivery and the consumers. The producer is a log of the messages handed to it: `_send_booking_event` swallows delivery errors. Timestamps in event payloads are modelled as present or absent, not as `isoformat` text.
- The clock. Each operation reads one `now`; the source calls `datetime.utcnow()` separately for the expiry check and the confirmation or cancellation time.
- Decimal.ParseInt and BookingDao.BookingDao.GetTicketLockOwner read as `None` some values Python's `int()` accepts: surrounding whitespace, a leading `+` sign, `_` digit separators and non-ASCII Unicode digits. Values written by the core never contain them.
- The release in the handler's generic `except` branch (api/booking.py:82) is modelled as never raising; an exception there would replace the 500 detail.
- Exceptions raised inside the DAO's confirm, cancel and sweep, whose 500 mapping in the handlers is not modelled. The handlers' `str(e)` messages are an opaque string parameter.
- `ShowApi.CreateShowSteps` and `ShowApi.CreateShow`: a database error is modelled as leaving the tables as they were, which is what the `rollback` achieves for uncommitted rows. The point inside the DAO where the error strikes is not modelled.
- `get_booking_with_details` and the detail endpoint: joined-row plumbing with float conversion.
- Prices are integers, not `Numeric`/`float`. `math.ceil(total_count / limit)` is integer ceiling division. The two agree for any realistic count.
- BookingDao.SortNewestFirst, BookingDao.UserPageSpec, BookingDao.BookingDao.GetUserBookings, BookingApi.ListUserBookings and BookingApi.EveryBookingListed keep bookings with equal `created_at` in table order. The source asks only for `order_by(Booking.created_at.desc())` (daos/booking.py:101), which fixes no order among ties, and each page is a separate OFFSET/LIMIT query. So in the source, two of one user's bookings with the same `created_at` that straddle a page boundary can appear on both pages or on neither. `EveryBookingListed` holds only under the model's fixed tie order.
- Authentication, users and roles beyond the `admin` check, the ticket catalogue CRUD, and `main.py`.
- `available_tickets` is never decremented by the core, and the model does not decrement it either.
- The sweep runs only from the admin endpoint (api/booking.py:213-236); nothing schedules it.
- The sweep commits once, after the loop (daos/booking.py:220-221).
- An unreachable lock store raises inside the handler's `try` and becomes a 500 (api/booking.py:80-86); it is one more exception of the `RaisesAt` kind.

## Findings

| source | as written | input that shows it | evidently intended | confidence | as-written member | corrected member |
|---|---|---|---|---|---|---|
| api/show.py:15-27 | the 400 for a show without tickets is raised inside the `try` and caught by `except Exception`, so it becomes 500 "Error creating show: 400: At least one ticket must be created" | a request whose ticket classes all have quantity 0, or no classes | a 400 "At least one ticket must be created" | high; not executed | ShowApi.CreateShowAsWritten | ShowApi.CreateShow |
| api/booking.py:78-86 | any non-HTTP exception releases the ticket's lock, even when this request never acquired it, so it deletes another user's live lock. A third request then reserves the same ticket | user 1 reserves ticket 1; user 2's request raises at the availability query; user 3 reserves ticket 1, leaving two `reserved` bookings | release only a lock this request acquired | medium; not executed | BookingApi.StolenLockAsWritten | BookingApi.StolenLockCorrected |

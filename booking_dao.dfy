/**
 * The booking data-access object: the per-ticket lock on top of the Redis
 * keyspace, the booking state machine (reserved -> confirmed, cancelled or
 * expired) on top of the tables, event emission, and the expiry sweep.
 *
 * The first half of the module states the lifecycle on plain values (lock
 * keys, event snapshots, the sweep, the listing order, the lock/reservation
 * invariant); the class `BookingDao` is the imperative engine, and its
 * methods are specified in terms of those values.
 */
module BookingDao {
  import opened Wrappers
  import opened Decimal
  import opened Models
  import opened Stores

  // ---------------------------------------------------------------- lock keys

  const LockPrefix: string := "ticket_lock:"

  /** The Redis key guarding a ticket: `f"ticket_lock:{ticket_id}"`. */
  function LockKey(t: TicketId): string {
    LockPrefix + IntToString(t)
  }

  /** A lock key is the prefix followed by text that reads back as the
      ticket id. */
  lemma LockKeyParts(t: TicketId)
    ensures |LockKey(t)| > |LockPrefix| && LockKey(t)[..|LockPrefix|] == LockPrefix
    ensures ParseInt(LockKey(t)[|LockPrefix|..]) == Some(t)
  {
    assert LockKey(t)[|LockPrefix|..] == IntToString(t);
    ParseIntOfIntToString(t);
  }

  /** Distinct tickets never share a lock key, so the keyspace is
      partitioned by ticket. */
  lemma LockKeyInjective(t1: TicketId, t2: TicketId)
    ensures LockKey(t1) == LockKey(t2) ==> t1 == t2
  {
    if LockKey(t1) == LockKey(t2) {
      assert LockKey(t1)[|LockPrefix|..] == IntToString(t1);
      assert LockKey(t2)[|LockPrefix|..] == IntToString(t2);
      IntToStringInjective(t1, t2);
    }
  }

  /** The owner a stored lock value names: `int(value)` when the value is a
      non-empty decimal literal, otherwise `None`. */
  function OwnerOfValue(v: Option<string>): (r: Option<UserId>)
    ensures r.Some? ==> v.Some? && v.value != "" && ParseInt(v.value) == r
    ensures v.None? || v == Some("") ==> r.None?
  {
    if v.Some? && v.value != "" then ParseInt(v.value) else None
  }

  /** The value `acquire_ticket_lock` stores, `str(user_id)`, reads back as
      that same user. */
  lemma OwnerOfStoredValue(u: UserId)
    ensures OwnerOfValue(Some(IntToString(u))) == Some(u)
  {
    ParseIntOfIntToString(u);
  }

  // ----------------------------------------------------------- event payloads

  /** `_prepare_booking_data`: the booking as carried in an event message. */
  function PrepareBookingData(b: Booking): (d: BookingData)
    ensures d.id == b.id && d.userId == b.userId && d.ticketId == b.ticketId
    ensures ParseBookingStatus(d.status) == Some(b.status)
    ensures d.createdAt == Some(b.createdAt) && d.expiresAt == Some(b.expiresAt)
    ensures d.confirmedAt == b.confirmedAt && d.cancelledAt == b.cancelledAt
  {
    ParseBookingStatusOfValue(b.status);
    BookingData(b.id, b.userId, b.ticketId, b.status.Value(), Some(b.createdAt),
                b.confirmedAt, b.cancelledAt, Some(b.expiresAt))
  }

  /** `_prepare_user_data`. */
  function PrepareUserData(u: User): (d: UserData)
    ensures d.id == u.id && d.name == u.name && d.email == u.email
  {
    UserData(u.id, u.name, u.email)
  }

  /** How a consumer reads a booking back out of an event message. */
  function BookingOfData(d: BookingData): Option<Booking> {
    var st := ParseBookingStatus(d.status);
    if st.Some? && d.createdAt.Some? && d.expiresAt.Some? then
      Some(Booking(d.id, d.userId, d.ticketId, st.value, d.createdAt.value,
                   d.confirmedAt, d.cancelledAt, d.expiresAt.value))
    else None
  }

  /** The event snapshot loses nothing: the booking can be rebuilt from it. */
  lemma BookingDataRoundTrip(b: Booking)
    ensures BookingOfData(PrepareBookingData(b)) == Some(b)
  {
    ParseBookingStatusOfValue(b.status);
  }

  // ------------------------------------------------------------ the lifecycle

  /** A fresh reservation as `create_booking` inserts it. */
  function NewReservation(id: BookingId, u: UserId, t: TicketId, now: Time): (b: Booking)
    ensures b.id == id && b.userId == u && b.ticketId == t && b.createdAt == now
    ensures b.status == Reserved && b.confirmedAt.None? && b.cancelledAt.None?
    ensures forall later :: Overdue(b, later) <==> later > now + BookingTtl
  {
    Booking(id, u, t, Reserved, now, None, None, now + BookingTtl)
  }

  /** One booking row before and after an operation: either untouched, or
      moved along a lifecycle edge with its identity, owner, ticket, creation
      time and deadline kept. */
  predicate StepOk(b: Booking, b': Booking) {
    b == b' ||
    (&& b'.id == b.id && b'.userId == b.userId && b'.ticketId == b.ticketId
     && b'.createdAt == b.createdAt && b'.expiresAt == b.expiresAt
     && CanTransition(b.status, b'.status))
  }

  /** The booking table evolves lawfully: no row is removed and every row
      takes at most a lifecycle step. */
  ghost predicate Evolves(before: seq<Booking>, after: seq<Booking>) {
    |before| <= |after| && forall i :: 0 <= i < |before| ==> StepOk(before[i], after[i])
  }

  /** Terminal states are final: across any lawful evolution a booking that
      was confirmed, cancelled or expired keeps every field. */
  lemma TerminalIsFinal(before: seq<Booking>, after: seq<Booking>, i: nat)
    requires Evolves(before, after) && i < |before| && before[i].status.IsTerminal()
    ensures after[i] == before[i]
  {
  }

  /** Two lawful evolutions in a row are one lawful evolution: a booking
      leaves `reserved` at most once. */
  lemma EvolvesTransitive(s1: seq<Booking>, s2: seq<Booking>, s3: seq<Booking>)
    requires Evolves(s1, s2) && Evolves(s2, s3)
    ensures Evolves(s1, s3)
  {
    forall i | 0 <= i < |s1|
      ensures StepOk(s1[i], s3[i])
    {
      assert StepOk(s1[i], s2[i]) && StepOk(s2[i], s3[i]);
    }
  }

  /** Rewriting one row by a lifecycle step is a lawful evolution. */
  lemma UpdateEvolves(bs: seq<Booking>, i: nat, b': Booking)
    requires i < |bs| && StepOk(bs[i], b')
    ensures Evolves(bs, bs[i := b'])
  {
    assert forall j :: 0 <= j < |bs| && j != i ==> bs[i := b'][j] == bs[j];
  }

  // ---------------------------------------------------------------- the sweep

  /** The filter of `get_expired_bookings`: still reserved and strictly past
      its deadline. */
  predicate Overdue(b: Booking, now: Time) {
    b.status == Reserved && b.expiresAt < now
  }

  /** The rows `get_expired_bookings` returns, in table order. */
  function FilterOverdue(bs: seq<Booking>, now: Time): (r: seq<Booking>)
    ensures |r| <= |bs|
    ensures forall b :: b in r <==> b in bs && Overdue(b, now)
    ensures (forall i :: 0 <= i < |bs| ==> !Overdue(bs[i], now)) ==> r == []
    decreases |bs|
  {
    if |bs| == 0 then []
    else
      var rest := FilterOverdue(bs[1..], now);
      assert forall b :: b in bs <==> b == bs[0] || b in bs[1..];
      if Overdue(bs[0], now) then [bs[0]] + rest else rest
  }

  /** The booking table after one sweep at `now`. */
  function ExpireOverdue(bs: seq<Booking>, now: Time): (r: seq<Booking>)
    ensures |r| == |bs|
  {
    seq(|bs|, i requires 0 <= i < |bs| => if Overdue(bs[i], now) then bs[i].(status := Expired) else bs[i])
  }

  /** The lock keys one sweep at `now` deletes. */
  function OverdueLockKeys(bs: seq<Booking>, now: Time): set<string> {
    set i | 0 <= i < |bs| && Overdue(bs[i], now) :: LockKey(bs[i].ticketId)
  }

  /** The sweep expires exactly the overdue bookings and leaves every other
      row as it was. */
  lemma ExpireOverdueSpec(bs: seq<Booking>, now: Time, i: nat)
    requires i < |bs|
    ensures Overdue(bs[i], now) ==> ExpireOverdue(bs, now)[i] == bs[i].(status := Expired)
    ensures !Overdue(bs[i], now) ==> ExpireOverdue(bs, now)[i] == bs[i]
  {
  }

  /** After a sweep no reserved booking is past its deadline, so a second
      sweep at the same instant changes nothing. */
  lemma ExpireOverdueIdempotent(bs: seq<Booking>, now: Time)
    ensures FilterOverdue(ExpireOverdue(bs, now), now) == []
    ensures ExpireOverdue(ExpireOverdue(bs, now), now) == ExpireOverdue(bs, now)
    ensures OverdueLockKeys(ExpireOverdue(bs, now), now) == {}
  {
    var r := ExpireOverdue(bs, now);
    assert forall i :: 0 <= i < |r| ==> !Overdue(r[i], now);
  }

  lemma ExpireOverdueEvolves(bs: seq<Booking>, now: Time)
    ensures Evolves(bs, ExpireOverdue(bs, now))
  {
  }

  /** The table with every listed booking expired: the sweep's progress
      after it has handled the bookings in `es`. */
  function ExpireListed(bs: seq<Booking>, es: seq<Booking>): (r: seq<Booking>)
    ensures |r| == |bs|
  {
    seq(|bs|, i requires 0 <= i < |bs| => if bs[i] in es then bs[i].(status := Expired) else bs[i])
  }

  /** The lock keys of the listed bookings' tickets. */
  function LockKeysOf(es: seq<Booking>): set<string>
    decreases |es|
  {
    if |es| == 0 then {} else LockKeysOf(es[..|es| - 1]) + {LockKey(es[|es| - 1].ticketId)}
  }

  lemma {:induction false} LockKeysOfMembers(es: seq<Booking>)
    ensures forall key :: key in LockKeysOf(es) <==> exists b :: b in es && key == LockKey(b.ticketId)
    decreases |es|
  {
    if |es| > 0 {
      var front := es[..|es| - 1];
      LockKeysOfMembers(front);
      assert es == front + [es[|es| - 1]];
      assert forall b :: b in es <==> b in front || b == es[|es| - 1];
    }
  }

  lemma LockKeysOfSnoc(es: seq<Booking>, b: Booking)
    ensures LockKeysOf(es + [b]) == LockKeysOf(es) + {LockKey(b.ticketId)}
  {
    assert (es + [b])[..|es|] == es;
  }

  /** Releasing one more listed booking's lock. */
  lemma ReleaseListedStep(locks: map<string, string>, es: seq<Booking>, b: Booking)
    ensures (locks - LockKeysOf(es)) - {LockKey(b.ticketId)} == locks - LockKeysOf(es + [b])
  {
    LockKeysOfSnoc(es, b);
  }

  lemma ExpireListedNone(bs: seq<Booking>)
    ensures ExpireListed(bs, []) == bs
  {
  }

  /** Handling one more booking of the list rewrites exactly its own row. */
  lemma ExpireListedStep(bs: seq<Booking>, es: seq<Booking>, b: Booking)
    requires IdsArePositions(bs) && b in bs
    ensures 1 <= b.id <= |bs| && bs[b.id - 1] == b
    ensures ExpireListed(bs, es + [b]) == ExpireListed(bs, es)[b.id - 1 := b.(status := Expired)]
  {
    var k :| 0 <= k < |bs| && bs[k] == b;
    assert forall j :: 0 <= j < |bs| && j != k ==> bs[j] != b;
  }

  /** One round of the sweep loop, on the ghost state: expiring the next
      listed booking's row and deleting its ticket's lock extends both
      closed forms by that booking. */
  lemma SweepStep(bs0: seq<Booking>, locks0: map<string, string>, done: seq<Booking>, b: Booking)
    requires IdsArePositions(bs0) && b in bs0
    ensures 1 <= b.id <= |bs0| && bs0[b.id - 1] == b
    ensures ExpireListed(bs0, done)[b.id - 1 := b.(status := Expired)] == ExpireListed(bs0, done + [b])
    ensures (locks0 - LockKeysOf(done)) - {LockKey(b.ticketId)} == locks0 - LockKeysOf(done + [b])
  {
    ExpireListedStep(bs0, done, b);
    ReleaseListedStep(locks0, done, b);
  }

  /** A prefix one longer is the shorter prefix and the next element. */
  lemma PrefixSnoc(s: seq<Booking>, k: nat)
    requires k < |s|
    ensures s[..k + 1] == s[..k] + [s[k]]
  {
  }

  lemma ExpireListedOverdue(bs: seq<Booking>, now: Time)
    ensures ExpireListed(bs, FilterOverdue(bs, now)) == ExpireOverdue(bs, now)
  {
  }

  lemma LockKeysOfOverdue(bs: seq<Booking>, now: Time)
    ensures LockKeysOf(FilterOverdue(bs, now)) == OverdueLockKeys(bs, now)
  {
    LockKeysOfMembers(FilterOverdue(bs, now));
    forall key | key in OverdueLockKeys(bs, now)
      ensures key in LockKeysOf(FilterOverdue(bs, now))
    {
      var i :| 0 <= i < |bs| && Overdue(bs[i], now) && key == LockKey(bs[i].ticketId);
      assert bs[i] in FilterOverdue(bs, now);
    }
  }

  // ------------------------------------------------------------------ listing

  /** The rows of one user, in table order. */
  function BookingsOf(bs: seq<Booking>, u: UserId): (r: seq<Booking>)
    ensures |r| <= |bs|
    ensures forall b :: b in r <==> b in bs && b.userId == u
    decreases |bs|
  {
    if |bs| == 0 then []
    else
      var rest := BookingsOf(bs[1..], u);
      assert forall b :: b in bs <==> b == bs[0] || b in bs[1..];
      if bs[0].userId == u then [bs[0]] + rest else rest
  }

  /** Each of the user's rows is kept as often as the table holds it, and
      no other row is kept: the listing and its count are the user's rows. */
  lemma {:induction false} BookingsOfCounts(bs: seq<Booking>, u: UserId)
    ensures forall b :: multiset(BookingsOf(bs, u))[b] == if b.userId == u then multiset(bs)[b] else 0
    decreases |bs|
  {
    if |bs| > 0 {
      BookingsOfCounts(bs[1..], u);
      assert bs == [bs[0]] + bs[1..];
    }
  }

  /** `order_by(Booking.created_at.desc())`. */
  ghost predicate NewestFirst(s: seq<Booking>) {
    forall i, j :: 0 <= i < j < |s| ==> s[i].createdAt >= s[j].createdAt
  }

  function InsertNewestFirst(b: Booking, s: seq<Booking>): seq<Booking>
    decreases |s|
  {
    if |s| == 0 || b.createdAt >= s[0].createdAt then [b] + s
    else [s[0]] + InsertNewestFirst(b, s[1..])
  }

  /** A stable sort by creation time, newest first; rows created at the same
      instant stay in table order. */
  function SortNewestFirst(s: seq<Booking>): seq<Booking>
    decreases |s|
  {
    if |s| == 0 then [] else InsertNewestFirst(s[0], SortNewestFirst(s[1..]))
  }

  /** Insertion adds exactly the one row. */
  lemma {:induction false} InsertNewestFirstPerm(b: Booking, s: seq<Booking>)
    ensures multiset(InsertNewestFirst(b, s)) == multiset(s) + multiset{b}
    decreases |s|
  {
    if |s| > 0 && b.createdAt < s[0].createdAt {
      InsertNewestFirstPerm(b, s[1..]);
      assert s == [s[0]] + s[1..];
    }
  }

  /** Insertion creates no row newer than the newest of `b` and `s`. */
  lemma {:induction false} InsertNewestFirstBounded(b: Booking, s: seq<Booking>, t: Time)
    requires b.createdAt <= t
    requires forall k :: 0 <= k < |s| ==> s[k].createdAt <= t
    ensures forall k :: 0 <= k < |InsertNewestFirst(b, s)| ==> InsertNewestFirst(b, s)[k].createdAt <= t
    decreases |s|
  {
    if |s| > 0 && b.createdAt < s[0].createdAt {
      InsertNewestFirstBounded(b, s[1..], t);
    }
  }

  lemma {:induction false} InsertNewestFirstSpec(b: Booking, s: seq<Booking>)
    requires NewestFirst(s)
    ensures NewestFirst(InsertNewestFirst(b, s))
    ensures multiset(InsertNewestFirst(b, s)) == multiset(s) + multiset{b}
    ensures |s| > 0 ==> InsertNewestFirst(b, s)[0] == b || InsertNewestFirst(b, s)[0] == s[0]
    decreases |s|
  {
    InsertNewestFirstPerm(b, s);
    if |s| > 0 && b.createdAt < s[0].createdAt {
      var tail := InsertNewestFirst(b, s[1..]);
      InsertNewestFirstSpec(b, s[1..]);
      InsertNewestFirstBounded(b, s[1..], s[0].createdAt);
      var r := [s[0]] + tail;
      assert forall j :: 1 <= j < |r| ==> r[j] == tail[j - 1];
    }
  }

  lemma {:induction false} SortNewestFirstSpec(s: seq<Booking>)
    ensures NewestFirst(SortNewestFirst(s))
    ensures multiset(SortNewestFirst(s)) == multiset(s)
    ensures |SortNewestFirst(s)| == |s|
    decreases |s|
  {
    if |s| > 0 {
      SortNewestFirstSpec(s[1..]);
      InsertNewestFirstSpec(s[0], SortNewestFirst(s[1..]));
      assert s == [s[0]] + s[1..];
    }
  }

  /** A newest-first listing keeps its order in every window. */
  lemma NewestFirstSlice(s: seq<Booking>, lo: nat, hi: nat)
    requires NewestFirst(s) && lo <= hi <= |s|
    ensures NewestFirst(s[lo..hi])
  {
    forall i, j | 0 <= i < j < hi - lo
      ensures s[lo..hi][i].createdAt >= s[lo..hi][j].createdAt
    {
      assert s[lo..hi][i] == s[lo + i] && s[lo..hi][j] == s[lo + j];
    }
  }

  function Min(a: int, b: int): int {
    if a <= b then a else b
  }

  /** `offset(skip).limit(limit)` on a listing. */
  function Window(s: seq<Booking>, skip: nat, limit: nat): (r: seq<Booking>)
    ensures |r| <= limit
    ensures |r| == Min(skip + limit, |s|) - Min(skip, |s|)
    ensures forall k :: 0 <= k < |r| ==> skip + k < |s| && r[k] == s[skip + k]
  {
    s[Min(skip, |s|)..Min(skip + limit, |s|)]
  }

  /** One page of a user's bookings: newest first, then offset and limit. */
  function UserPage(bs: seq<Booking>, u: UserId, skip: nat, limit: nat): seq<Booking> {
    Window(SortNewestFirst(BookingsOf(bs, u)), skip, limit)
  }

  /** A page holds rows `skip` to `skip + limit` of the user's newest-first
      listing, as many of them as exist; they are the user's and in order. */
  lemma UserPageSpec(bs: seq<Booking>, u: UserId, skip: nat, limit: nat)
    ensures |UserPage(bs, u, skip, limit)| <= limit
    ensures var n := |BookingsOf(bs, u)|;
      |UserPage(bs, u, skip, limit)| == Min(skip + limit, n) - Min(skip, n)
    ensures forall k :: 0 <= k < |UserPage(bs, u, skip, limit)| ==>
      skip + k < |BookingsOf(bs, u)| && UserPage(bs, u, skip, limit)[k] == SortNewestFirst(BookingsOf(bs, u))[skip + k]
    ensures forall b :: b in UserPage(bs, u, skip, limit) ==> b in bs && b.userId == u
    ensures NewestFirst(UserPage(bs, u, skip, limit))
  {
    var all := SortNewestFirst(BookingsOf(bs, u));
    SortNewestFirstSpec(BookingsOf(bs, u));
    NewestFirstSlice(all, Min(skip, |all|), Min(skip + limit, |all|));
    var page := UserPage(bs, u, skip, limit);
    forall b | b in page
      ensures b in bs && b.userId == u
    {
      var k :| 0 <= k < |page| && page[k] == b;
      assert b in all;
      assert b in multiset(BookingsOf(bs, u));
    }
  }

  // ---------------------------------------------- the lock/reservation invariant

  /** Every reserved booking's ticket lock is present and names the
      booking's user. */
  ghost predicate LocksCoverReservations(bs: seq<Booking>, locks: map<string, string>) {
    forall i :: 0 <= i < |bs| && bs[i].status == Reserved ==>
      LockKey(bs[i].ticketId) in locks && locks[LockKey(bs[i].ticketId)] == IntToString(bs[i].userId)
  }

  /** At most one reserved booking per ticket. */
  ghost predicate SingleReservation(bs: seq<Booking>) {
    forall i, j :: 0 <= i < |bs| && 0 <= j < |bs| && i != j && bs[i].status == Reserved && bs[j].status == Reserved ==>
      bs[i].ticketId != bs[j].ticketId
  }

  ghost predicate Guarded(bs: seq<Booking>, locks: map<string, string>) {
    LocksCoverReservations(bs, locks) && SingleReservation(bs)
  }

  /** Inserting a reservation whose lock was just taken keeps the invariant.
      The lock being free before means no other reservation held it. */
  lemma ReserveKeepsGuarded(bs: seq<Booking>, locks: map<string, string>, b: Booking)
    requires Guarded(bs, locks)
    requires b.status == Reserved && LockKey(b.ticketId) !in locks
    ensures Guarded(bs + [b], locks[LockKey(b.ticketId) := IntToString(b.userId)])
  {
    var bs', locks' := bs + [b], locks[LockKey(b.ticketId) := IntToString(b.userId)];
    forall i | 0 <= i < |bs| && bs[i].status == Reserved
      ensures bs[i].ticketId != b.ticketId
    {
      assert LockKey(bs[i].ticketId) in locks;
    }
    assert forall i :: 0 <= i < |bs| ==> bs'[i] == bs[i];
  }

  /** Moving one reservation to a terminal state and deleting its ticket's
      lock keeps the invariant (confirm and cancel). */
  lemma FinishKeepsGuarded(bs: seq<Booking>, locks: map<string, string>, i: nat, b': Booking)
    requires Guarded(bs, locks)
    requires i < |bs| && bs[i].status == Reserved && b'.status != Reserved
    ensures Guarded(bs[i := b'], locks - {LockKey(bs[i].ticketId)})
  {
    var bs', locks' := bs[i := b'], locks - {LockKey(bs[i].ticketId)};
    forall j | 0 <= j < |bs'| && bs'[j].status == Reserved
      ensures LockKey(bs'[j].ticketId) in locks' && locks'[LockKey(bs'[j].ticketId)] == IntToString(bs'[j].userId)
    {
      assert j != i && bs'[j] == bs[j];
      LockKeyInjective(bs[j].ticketId, bs[i].ticketId);
    }
  }

  /** Moving one reservation to a terminal state without touching the lock
      keeps the invariant (confirm after the deadline). */
  lemma ExpireInPlaceKeepsGuarded(bs: seq<Booking>, locks: map<string, string>, i: nat, b': Booking)
    requires Guarded(bs, locks)
    requires i < |bs| && b'.status != Reserved
    ensures Guarded(bs[i := b'], locks)
  {
    var bs' := bs[i := b'];
    assert forall j :: 0 <= j < |bs'| && j != i ==> bs'[j] == bs[j];
  }

  /** The sweep keeps the invariant: each deleted lock belonged to the one
      reservation of its ticket, which the sweep expires. */
  lemma SweepKeepsGuarded(bs: seq<Booking>, locks: map<string, string>, now: Time)
    requires Guarded(bs, locks)
    ensures Guarded(ExpireOverdue(bs, now), locks - OverdueLockKeys(bs, now))
  {
    var bs', locks' := ExpireOverdue(bs, now), locks - OverdueLockKeys(bs, now);
    forall j | 0 <= j < |bs'| && bs'[j].status == Reserved
      ensures LockKey(bs'[j].ticketId) in locks' && locks'[LockKey(bs'[j].ticketId)] == IntToString(bs'[j].userId)
    {
      assert bs'[j] == bs[j] && !Overdue(bs[j], now);
      forall i | 0 <= i < |bs| && Overdue(bs[i], now)
        ensures LockKey(bs[i].ticketId) != LockKey(bs[j].ticketId)
      {
        LockKeyInjective(bs[i].ticketId, bs[j].ticketId);
      }
    }
    assert forall j :: 0 <= j < |bs'| && bs'[j].status == Reserved ==> bs'[j] == bs[j];
  }

  // ------------------------------------------------------ confirm and cancel

  /** The guard confirm and cancel share, on a table value: the booking
      exists, belongs to the caller and is still reserved. */
  function ReservationIn(bs: seq<Booking>, bid: BookingId, uid: UserId): (r: Option<Booking>)
    requires IdsArePositions(bs)
    ensures r.Some? <==> exists i :: 0 <= i < |bs| && bs[i].id == bid && bs[i].userId == uid && bs[i].status == Reserved
    ensures r.Some? ==> 1 <= bid <= |bs| && r.value == bs[bid - 1]
  {
    if 1 <= bid <= |bs| && bs[bid - 1].userId == uid && bs[bid - 1].status == Reserved then Some(bs[bid - 1]) else None
  }

  /** The ticket table after a confirm sells ticket `t` to `uid`; a missing
      ticket row is skipped. */
  function SellTo(ts: seq<Ticket>, t: TicketId, uid: UserId): (r: seq<Ticket>)
    ensures |r| == |ts|
    ensures forall i :: 0 <= i < |ts| && i != t - 1 ==> r[i] == ts[i]
    ensures 1 <= t <= |ts| ==> r[t - 1].status == TicketSold && r[t - 1].userId == Some(uid)
    ensures 1 <= t <= |ts| ==> r[t - 1] == ts[t - 1].(status := TicketSold, userId := Some(uid))
  {
    if 1 <= t <= |ts| then ts[t - 1 := ts[t - 1].(status := TicketSold, userId := Some(uid))] else ts
  }

  /** The message a confirm or cancel emits: one event when the user's row
      exists, none otherwise. */
  function Notice(kind: EventType, b: Booking, users: map<UserId, User>, uid: UserId): (r: seq<Event>)
    ensures |r| == (if uid in users then 1 else 0)
  {
    if uid in users then [Event(kind, PrepareBookingData(b), PrepareUserData(users[uid]))] else []
  }

  // --------------------------------------------------------------- the engine

  /** `BookingDAO`: one request's view of the tables, the lock store and the
      event producer. */
  class BookingDao {
    const db: Database
    const redis: LockStore
    const producer: EventProducer
    /** `booking_ttl`: the lock's expiry and the reservation window. */
    const bookingTtl: int := BookingTtl

    ghost predicate Valid()
      reads this, db
    {
      db.Valid()
    }

    constructor (db: Database, redis: LockStore, producer: EventProducer)
      ensures this.db == db && this.redis == redis && this.producer == producer
    {
      this.db := db;
      this.redis := redis;
      this.producer := producer;
    }

    /** The owner `get_ticket_lock_owner` reports for a ticket. */
    function LockOwner(t: TicketId): (r: Option<UserId>)
      reads this, redis
      ensures r.Some? ==> LockKey(t) in redis.data
    {
      OwnerOfValue(if LockKey(t) in redis.data then Some(redis.data[LockKey(t)]) else None)
    }

    /** `acquire_ticket_lock`: set-if-absent on the ticket's key. */
    method AcquireTicketLock(t: TicketId, u: UserId) returns (ok: bool)
      modifies redis
      ensures ok <==> LockKey(t) !in old(redis.data)
      ensures redis.data == if ok then old(redis.data)[LockKey(t) := IntToString(u)] else old(redis.data)
      ensures ok ==> LockOwner(t) == Some(u)
    {
      ok := redis.SetIfAbsent(LockKey(t), IntToString(u));
      OwnerOfStoredValue(u);
    }

    /** `release_ticket_lock`: deletes the key whoever holds it. */
    method ReleaseTicketLock(t: TicketId) returns (ok: bool)
      modifies redis
      ensures ok <==> LockKey(t) in old(redis.data)
      ensures redis.data == old(redis.data) - {LockKey(t)}
    {
      var removed := redis.Delete(LockKey(t));
      ok := removed > 0;
    }

    /** `get_ticket_lock_owner`. */
    method GetTicketLockOwner(t: TicketId) returns (owner: Option<UserId>)
      ensures owner == LockOwner(t)
    {
      var v := redis.Get(LockKey(t));
      if v.Some? && v.value != "" {
        owner := ParseInt(v.value);
      } else {
        owner := None;
      }
    }

    /** `get_booking_by_id`: the booking with this id, if it is the user's. */
    function GetBookingById(bid: BookingId, uid: UserId): (r: Option<Booking>)
      requires Valid()
      reads this, db
      ensures r.Some? <==> exists i :: 0 <= i < |db.bookings| && db.bookings[i].id == bid && db.bookings[i].userId == uid
      ensures r.Some? ==> 1 <= bid <= |db.bookings| && r.value == db.bookings[bid - 1] && r.value.userId == uid
    {
      if 1 <= bid <= |db.bookings| && db.bookings[bid - 1].userId == uid then Some(db.bookings[bid - 1]) else None
    }

    /** `get_user_bookings`: one page of the user's bookings, newest first. */
    function GetUserBookings(uid: UserId, skip: nat, limit: nat): (r: seq<Booking>)
      reads this, db
      ensures |r| <= limit
      ensures |r| == Min(skip + limit, CountUserBookings(uid)) - Min(skip, CountUserBookings(uid))
      ensures forall k :: 0 <= k < |r| ==>
        skip + k < CountUserBookings(uid) && r[k] == SortNewestFirst(BookingsOf(db.bookings, uid))[skip + k]
      ensures forall b :: b in r ==> b in db.bookings && b.userId == uid
      ensures NewestFirst(r)
    {
      UserPageSpec(db.bookings, uid, skip, limit);
      UserPage(db.bookings, uid, skip, limit)
    }

    /** `count_user_bookings`. */
    function CountUserBookings(uid: UserId): (r: nat)
      reads this, db
      ensures r <= |db.bookings|
      ensures r == |SortNewestFirst(BookingsOf(db.bookings, uid))|
    {
      SortNewestFirstSpec(BookingsOf(db.bookings, uid));
      |BookingsOf(db.bookings, uid)|
    }

    /** `create_booking`: inserts a reservation when the ticket exists and is
        available. */
    method CreateBooking(ticketId: TicketId, userId: UserId, now: Time) returns (r: Option<Booking>)
      requires Valid()
      modifies db
      ensures Valid()
      ensures db.shows == old(db.shows) && db.tickets == old(db.tickets) && db.users == old(db.users)
      ensures var t := old(db.FindTicket(ticketId));
        if t.Some? && t.value.status == TicketAvailable then
          && r == Some(NewReservation(|old(db.bookings)| + 1, userId, ticketId, now))
          && db.bookings == old(db.bookings) + [r.value]
        else
          r == None && db.bookings == old(db.bookings)
      ensures Evolves(old(db.bookings), db.bookings)
    {
      var ticket := db.FindTicket(ticketId);
      if ticket.None? || ticket.value.status != TicketAvailable {
        return None;
      }
      var expiresAt := now + bookingTtl;
      var booking := Booking(|db.bookings| + 1, userId, ticketId, Reserved, now, None, None, expiresAt);
      db.bookings := db.bookings + [booking];
      r := Some(booking);
    }

    /** `_send_booking_event`: hands one message to the producer. */
    method SendBookingEvent(eventType: EventType, booking: Booking, user: User)
      modifies producer
      ensures producer.sent == old(producer.sent) + [Event(eventType, PrepareBookingData(booking), PrepareUserData(user))]
    {
      producer.Send(Event(eventType, PrepareBookingData(booking), PrepareUserData(user)));
    }

    /** `confirm_booking`. */
    method ConfirmBooking(bid: BookingId, uid: UserId, now: Time) returns (r: Option<Booking>)
      requires Valid()
      modifies db, redis, producer
      ensures Valid()
      ensures db.shows == old(db.shows) && db.users == old(db.users)
      ensures ReservationIn(old(db.bookings), bid, uid).None? ==>
        && r == None && db.bookings == old(db.bookings) && db.tickets == old(db.tickets)
        && redis.data == old(redis.data) && producer.sent == old(producer.sent)
      ensures ReservationIn(old(db.bookings), bid, uid).Some? && now > old(db.bookings[bid - 1].expiresAt) ==>
        && r == None
        && db.bookings == old(db.bookings)[bid - 1 := old(db.bookings[bid - 1]).(status := Expired)]
        && db.tickets == old(db.tickets) && redis.data == old(redis.data) && producer.sent == old(producer.sent)
      ensures ReservationIn(old(db.bookings), bid, uid).Some? && now <= old(db.bookings[bid - 1].expiresAt) ==>
        var b := old(db.bookings[bid - 1]);
        var b' := b.(status := Confirmed, confirmedAt := Some(now));
        && r == Some(b')
        && db.bookings == old(db.bookings)[bid - 1 := b']
        && db.tickets == SellTo(old(db.tickets), b.ticketId, uid)
        && redis.data == old(redis.data) - {LockKey(b.ticketId)}
        && producer.sent == old(producer.sent) + Notice(BookingConfirmed, b', db.users, uid)
      ensures Evolves(old(db.bookings), db.bookings)
      ensures old(Guarded(db.bookings, redis.data)) ==> Guarded(db.bookings, redis.data)
    {
      var found := GetBookingById(bid, uid);
      if found.None? || found.value.status != Reserved {
        return None;
      }
      var booking := found.value;
      if now > booking.expiresAt {
        ExpireReserved(booking);
        return None;
      }
      var confirmed := ConfirmReserved(booking, uid, now);
      r := Some(confirmed);
    }

    /** The late branch of `confirm_booking`: the booking is marked expired
        and nothing else changes. Its lock stays: the sweep lists only
        `reserved` bookings, so only the store's expiry clears it. */
    method ExpireReserved(booking: Booking)
      requires Valid()
      requires 1 <= booking.id <= |db.bookings| && db.bookings[booking.id - 1] == booking
      requires booking.status == Reserved
      modifies db
      ensures Valid()
      ensures db.shows == old(db.shows) && db.tickets == old(db.tickets) && db.users == old(db.users)
      ensures db.bookings == old(db.bookings)[booking.id - 1 := booking.(status := Expired)]
      ensures Evolves(old(db.bookings), db.bookings)
      ensures old(Guarded(db.bookings, redis.data)) ==> Guarded(db.bookings, redis.data)
    {
      var expired := booking.(status := Expired);
      if Guarded(db.bookings, redis.data) {
        ExpireInPlaceKeepsGuarded(db.bookings, redis.data, booking.id - 1, expired);
      }
      UpdateEvolves(db.bookings, booking.id - 1, expired);
      db.UpdateBooking(booking.id - 1, expired);
    }

    /** The successful branch of `confirm_booking`: sell the ticket, confirm
        the booking, notify, release the lock. */
    method ConfirmReserved(booking: Booking, uid: UserId, now: Time) returns (confirmed: Booking)
      requires Valid()
      requires 1 <= booking.id <= |db.bookings| && db.bookings[booking.id - 1] == booking
      requires booking.status == Reserved
      modifies db, redis, producer
      ensures Valid()
      ensures db.shows == old(db.shows) && db.users == old(db.users)
      ensures confirmed == booking.(status := Confirmed, confirmedAt := Some(now))
      ensures db.bookings == old(db.bookings)[booking.id - 1 := confirmed]
      ensures db.tickets == SellTo(old(db.tickets), booking.ticketId, uid)
      ensures redis.data == old(redis.data) - {LockKey(booking.ticketId)}
      ensures producer.sent == old(producer.sent) + Notice(BookingConfirmed, confirmed, db.users, uid)
      ensures Evolves(old(db.bookings), db.bookings)
      ensures old(Guarded(db.bookings, redis.data)) ==> Guarded(db.bookings, redis.data)
    {
      SellTicket(booking.ticketId, uid);
      confirmed := booking.(status := Confirmed, confirmedAt := Some(now));
      Finish(booking, confirmed, BookingConfirmed, uid);
    }

    /** The ticket update of `confirm_booking`: the row, when it exists, is
        marked sold to the user. */
    method SellTicket(t: TicketId, uid: UserId)
      requires Valid()
      modifies db
      ensures Valid()
      ensures db.shows == old(db.shows) && db.bookings == old(db.bookings) && db.users == old(db.users)
      ensures db.tickets == SellTo(old(db.tickets), t, uid)
    {
      var ticket := db.FindTicket(t);
      if ticket.Some? {
        db.UpdateTicket(t - 1, ticket.value.(status := TicketSold, userId := Some(uid)));
      }
    }

    /** `cancel_booking`: allowed while reserved, whatever the deadline; the
        ticket is left as it is. */
    method CancelBooking(bid: BookingId, uid: UserId, now: Time) returns (r: Option<Booking>)
      requires Valid()
      modifies db, redis, producer
      ensures Valid()
      ensures db.shows == old(db.shows) && db.tickets == old(db.tickets) && db.users == old(db.users)
      ensures ReservationIn(old(db.bookings), bid, uid).None? ==>
        && r == None && db.bookings == old(db.bookings)
        && redis.data == old(redis.data) && producer.sent == old(producer.sent)
      ensures ReservationIn(old(db.bookings), bid, uid).Some? ==>
        var b := old(db.bookings[bid - 1]);
        var b' := b.(status := Cancelled, cancelledAt := Some(now));
        && r == Some(b')
        && db.bookings == old(db.bookings)[bid - 1 := b']
        && redis.data == old(redis.data) - {LockKey(b.ticketId)}
        && producer.sent == old(producer.sent) + Notice(BookingCancelled, b', db.users, uid)
      ensures Evolves(old(db.bookings), db.bookings)
      ensures old(Guarded(db.bookings, redis.data)) ==> Guarded(db.bookings, redis.data)
    {
      var found := GetBookingById(bid, uid);
      if found.None? || found.value.status != Reserved {
        return None;
      }
      var cancelled := CancelReserved(found.value, uid, now);
      r := Some(cancelled);
    }

    /** The successful branch of `cancel_booking`: cancel the booking,
        notify, release the lock. */
    method CancelReserved(booking: Booking, uid: UserId, now: Time) returns (cancelled: Booking)
      requires Valid()
      requires 1 <= booking.id <= |db.bookings| && db.bookings[booking.id - 1] == booking
      requires booking.status == Reserved
      modifies db, redis, producer
      ensures Valid()
      ensures db.shows == old(db.shows) && db.tickets == old(db.tickets) && db.users == old(db.users)
      ensures cancelled == booking.(status := Cancelled, cancelledAt := Some(now))
      ensures db.bookings == old(db.bookings)[booking.id - 1 := cancelled]
      ensures redis.data == old(redis.data) - {LockKey(booking.ticketId)}
      ensures producer.sent == old(producer.sent) + Notice(BookingCancelled, cancelled, db.users, uid)
      ensures Evolves(old(db.bookings), db.bookings)
      ensures old(Guarded(db.bookings, redis.data)) ==> Guarded(db.bookings, redis.data)
    {
      cancelled := booking.(status := Cancelled, cancelledAt := Some(now));
      Finish(booking, cancelled, BookingCancelled, uid);
    }

    /** What a confirm and a cancel share once the booking is known to be a
        reservation: write the finished row back, send the event when the
        user exists, delete the ticket's lock. */
    method Finish(booking: Booking, finished: Booking, kind: EventType, uid: UserId)
      requires Valid()
      requires 1 <= booking.id <= |db.bookings| && db.bookings[booking.id - 1] == booking
      requires booking.status == Reserved && finished.status != Reserved && StepOk(booking, finished)
      modifies db, redis, producer
      ensures Valid()
      ensures db.shows == old(db.shows) && db.tickets == old(db.tickets) && db.users == old(db.users)
      ensures db.bookings == old(db.bookings)[booking.id - 1 := finished]
      ensures redis.data == old(redis.data) - {LockKey(booking.ticketId)}
      ensures producer.sent == old(producer.sent) + Notice(kind, finished, db.users, uid)
      ensures Evolves(old(db.bookings), db.bookings)
      ensures old(Guarded(db.bookings, redis.data)) ==> Guarded(db.bookings, redis.data)
    {
      var user := if uid in db.users then Some(db.users[uid]) else None;
      if Guarded(db.bookings, redis.data) {
        FinishKeepsGuarded(db.bookings, redis.data, booking.id - 1, finished);
      }
      UpdateEvolves(db.bookings, booking.id - 1, finished);
      db.UpdateBooking(booking.id - 1, finished);
      if user.Some? {
        SendBookingEvent(kind, finished, user.value);
      }
      var _ := ReleaseTicketLock(booking.ticketId);
    }

    /** `get_expired_bookings`. */
    function GetExpiredBookings(now: Time): (r: seq<Booking>)
      reads this, db
      ensures forall b :: b in r <==> b in db.bookings && Overdue(b, now)
    {
      FilterOverdue(db.bookings, now)
    }

    /** The loop of `cleanup_expired_bookings`: for each listed booking, set
        it to expired and release its ticket's lock. */
    method ExpireEach(expired: seq<Booking>)
      requires Valid()
      requires forall b :: b in expired ==> b in db.bookings
      modifies db, redis
      ensures Valid()
      ensures db.shows == old(db.shows) && db.tickets == old(db.tickets) && db.users == old(db.users)
      ensures db.bookings == ExpireListed(old(db.bookings), expired)
      ensures redis.data == old(redis.data) - LockKeysOf(expired)
    {
      ghost var bs0, locks0 := db.bookings, redis.data;
      ghost var done: seq<Booking> := [];
      ExpireListedNone(bs0);
      var k := 0;
      while k < |expired|
        invariant 0 <= k <= |expired| && done == expired[..k]
        invariant db.Valid()
        invariant db.shows == old(db.shows) && db.tickets == old(db.tickets) && db.users == old(db.users)
        invariant db.bookings == ExpireListed(bs0, done)
        invariant redis.data == locks0 - LockKeysOf(done)
      {
        var booking := expired[k];
        assert booking in bs0;
        SweepStep(bs0, locks0, done, booking);
        ExpireOne(booking);
        assert db.bookings == ExpireListed(bs0, done + [booking]);
        assert redis.data == locks0 - LockKeysOf(done + [booking]);
        PrefixSnoc(expired, k);
        done := done + [booking];
        k := k + 1;
      }
      assert done == expired;
    }

    /** One round of the sweep: the booking's row is set to expired and its
        ticket's lock is deleted. */
    method ExpireOne(booking: Booking)
      requires Valid() && 1 <= booking.id <= |db.bookings|
      modifies db, redis
      ensures Valid()
      ensures db.shows == old(db.shows) && db.tickets == old(db.tickets) && db.users == old(db.users)
      ensures db.bookings == old(db.bookings)[booking.id - 1 := booking.(status := Expired)]
      ensures redis.data == old(redis.data) - {LockKey(booking.ticketId)}
    {
      db.UpdateBooking(booking.id - 1, booking.(status := Expired));
      var _ := ReleaseTicketLock(booking.ticketId);
    }

    /** `cleanup_expired_bookings`: expires each overdue reservation and
        deletes its ticket's lock. */
    method CleanupExpiredBookings(now: Time)
      requires Valid()
      modifies db, redis
      ensures Valid()
      ensures db.shows == old(db.shows) && db.tickets == old(db.tickets) && db.users == old(db.users)
      ensures db.bookings == ExpireOverdue(old(db.bookings), now)
      ensures redis.data == old(redis.data) - OverdueLockKeys(old(db.bookings), now)
      ensures Evolves(old(db.bookings), db.bookings)
      ensures old(Guarded(db.bookings, redis.data)) ==> Guarded(db.bookings, redis.data)
    {
      ghost var bs0, locks0 := db.bookings, redis.data;
      var expired := GetExpiredBookings(now);
      ExpireEach(expired);
      ExpireListedOverdue(bs0, now);
      LockKeysOfOverdue(bs0, now);
      if Guarded(bs0, locks0) {
        SweepKeepsGuarded(bs0, locks0, now);
      }
    }
  }
}

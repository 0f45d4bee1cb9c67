/**
 * Creating a show and expanding its ticket classes into ticket rows, one
 * row per unit of each class's quantity, seats labelled `Class-NNN`.
 */
module ShowDao {
  import opened Wrappers
  import opened Decimal
  import opened Models
  import opened Stores

  /** The seat label `f"{ticket_class}-{n:03d}"`. */
  function SeatLabel(ticketClass: string, n: nat): (s: string)
    ensures |s| >= |ticketClass| + 4 && s[..|ticketClass|] == ticketClass && s[|ticketClass|] == '-'
  {
    ticketClass + "-" + ZeroPad(n, 3)
  }

  /** A seat label is the class name, a dash, and at least three digits
      that read back as the seat number. */
  lemma SeatLabelParts(ticketClass: string, n: nat)
    ensures var s := SeatLabel(ticketClass, n);
      && |s| >= |ticketClass| + 4
      && s[..|ticketClass|] == ticketClass && s[|ticketClass|] == '-'
      && AllDigits(s[|ticketClass| + 1..]) && DigitsValue(s[|ticketClass| + 1..]) == n
  {
    var s := SeatLabel(ticketClass, n);
    assert s[|ticketClass| + 1..] == ZeroPad(n, 3);
  }

  /** Within one class, distinct numbers give distinct seats. */
  lemma SeatLabelInjective(ticketClass: string, m: nat, n: nat)
    requires SeatLabel(ticketClass, m) == SeatLabel(ticketClass, n)
    ensures m == n
  {
    var a, b := SeatLabel(ticketClass, m), SeatLabel(ticketClass, n);
    SeatLabelParts(ticketClass, m);
    SeatLabelParts(ticketClass, n);
    assert a[|ticketClass| + 1..] == b[|ticketClass| + 1..];
  }

  /** Numbers 1 to 999 are padded to exactly three digits. */
  lemma SeatLabelLength(ticketClass: string, n: nat)
    requires n < 1000
    ensures |SeatLabel(ticketClass, n)| == |ticketClass| + 4
  {
    assert Pow10(3) == 1000;
    ZeroPadWidth(n, 3);
  }

  /** The `i`-th ticket (0-based) the inner loop adds for one class. */
  function ClassTicket(showId: ShowId, c: TicketClassInput, i: nat): Ticket {
    Ticket(showId, None, TicketAvailable, c.price, SeatLabel(c.ticketClass, i + 1))
  }

  /** The first `n` tickets the inner loop adds for one class. */
  function ClassTicketsUpTo(showId: ShowId, c: TicketClassInput, n: nat): (r: seq<Ticket>)
    ensures |r| == n
  {
    if n == 0 then [] else ClassTicketsUpTo(showId, c, n - 1) + [ClassTicket(showId, c, n - 1)]
  }

  /** Every ticket `range(quantity)` produces for one class; a negative
      quantity gives an empty range. */
  function ClassTickets(showId: ShowId, c: TicketClassInput): (r: seq<Ticket>)
    ensures |r| == if c.quantity > 0 then c.quantity else 0
  {
    ClassTicketsUpTo(showId, c, if c.quantity > 0 then c.quantity else 0)
  }

  /** The `i`-th of the first `n` tickets is the loop's `i`-th ticket. */
  lemma {:induction false} ClassTicketsUpToAt(showId: ShowId, c: TicketClassInput, n: nat, i: nat)
    requires i < n
    ensures ClassTicketsUpTo(showId, c, n)[i] == ClassTicket(showId, c, i)
    decreases n
  {
    if i < n - 1 {
      ClassTicketsUpToAt(showId, c, n - 1, i);
    }
  }

  /** One class yields `quantity` tickets, the `i`-th being the loop's
      `i`-th: seat number `i + 1`, the class price, the show, `available`. */
  lemma ClassTicketsAt(showId: ShowId, c: TicketClassInput, i: nat)
    requires i < |ClassTickets(showId, c)|
    ensures ClassTickets(showId, c)[i] == ClassTicket(showId, c, i)
    ensures ClassTickets(showId, c)[i] == Ticket(showId, None, TicketAvailable, c.price, SeatLabel(c.ticketClass, i + 1))
  {
    ClassTicketsUpToAt(showId, c, |ClassTickets(showId, c)|, i);
  }

  /** The seats of one class are numbered 1 to `quantity` and pairwise
      distinct. */
  lemma ClassSeatsDistinct(showId: ShowId, c: TicketClassInput, i: nat, j: nat)
    requires i < |ClassTickets(showId, c)| && j < |ClassTickets(showId, c)|
    ensures ClassTickets(showId, c)[i].seat == SeatLabel(c.ticketClass, i + 1)
    ensures i != j ==> ClassTickets(showId, c)[i].seat != ClassTickets(showId, c)[j].seat
  {
    ClassTicketsAt(showId, c, i);
    ClassTicketsAt(showId, c, j);
    var a, b := SeatLabel(c.ticketClass, i + 1), SeatLabel(c.ticketClass, j + 1);
    assert ClassTickets(showId, c)[i].seat == a && ClassTickets(showId, c)[j].seat == b;
    if a == b {
      SeatLabelInjective(c.ticketClass, i + 1, j + 1);
    }
  }

  /** The tickets of all classes, class after class in input order. */
  function ExpandTickets(showId: ShowId, classes: seq<TicketClassInput>): seq<Ticket>
    decreases |classes|
  {
    if |classes| == 0 then []
    else ExpandTickets(showId, classes[..|classes| - 1]) + ClassTickets(showId, classes[|classes| - 1])
  }

  lemma ExpandTicketsStep(showId: ShowId, classes: seq<TicketClassInput>, k: nat)
    requires k < |classes|
    ensures ExpandTickets(showId, classes[..k + 1]) == ExpandTickets(showId, classes[..k]) + ClassTickets(showId, classes[k])
  {
    assert classes[..k + 1][..k] == classes[..k];
  }

  lemma AppendAssociative(a: seq<Ticket>, b: seq<Ticket>, c: seq<Ticket>)
    ensures (a + b) + c == a + (b + c)
  {
  }

  /** Expansion distributes over concatenation: the tickets of `a + b` are
      those of `a` followed by those of `b`. */
  lemma {:induction false} ExpandTicketsAppend(showId: ShowId, a: seq<TicketClassInput>, b: seq<TicketClassInput>)
    ensures ExpandTickets(showId, a + b) == ExpandTickets(showId, a) + ExpandTickets(showId, b)
    decreases |b|
  {
    if |b| > 0 {
      var b0 := b[..|b| - 1];
      assert (a + b)[..|a + b| - 1] == a + b0;
      assert (a + b)[|a + b| - 1] == b[|b| - 1];
      ExpandTicketsAppend(showId, a, b0);
    } else {
      assert a + b == a;
    }
  }

  /** Every generated ticket is available, unsold, belongs to the show and
      carries the price and a seat of one of the input classes. */
  lemma {:induction false} ExpandTicketsShape(showId: ShowId, classes: seq<TicketClassInput>, j: nat)
    requires j < |ExpandTickets(showId, classes)|
    ensures var t := ExpandTickets(showId, classes)[j];
      && t.showId == showId && t.status == TicketAvailable && t.userId == None
      && exists k, i :: 0 <= k < |classes| && 0 <= i < classes[k].quantity && t == ClassTicket(showId, classes[k], i)
    decreases |classes|
  {
    var n := |classes|;
    var front := ExpandTickets(showId, classes[..n - 1]);
    var last := ClassTickets(showId, classes[n - 1]);
    if j < |front| {
      ExpandTicketsShape(showId, classes[..n - 1], j);
      var t := front[j];
      var k, i :| 0 <= k < n - 1 && 0 <= i < classes[..n - 1][k].quantity && t == ClassTicket(showId, classes[..n - 1][k], i);
      assert classes[..n - 1][k] == classes[k];
    } else {
      var i := j - |front|;
      assert ExpandTickets(showId, classes)[j] == last[i];
      ClassTicketsAt(showId, classes[n - 1], i);
      assert ExpandTickets(showId, classes)[j] == ClassTicket(showId, classes[n - 1], i);
    }
  }

  /** `ShowDAO`: show creation on the shared session. */
  class ShowDao {
    const db: Database

    constructor (db: Database)
      ensures this.db == db
    {
      this.db := db;
    }

    /** `create_show_with_tickets`: inserts the show with the given total as
        both its total and its available count, then one ticket row per unit
        of each class, and commits. */
    method CreateShowWithTickets(data: ShowCreate, totalTickets: int) returns (show: Show)
      requires db.Valid()
      modifies db
      ensures db.Valid()
      ensures show == Show(|old(db.shows)| + 1, data.name, data.location, data.startTime,
                           totalTickets, totalTickets, data.description, data.performer)
      ensures db.shows == old(db.shows) + [show]
      ensures db.tickets == old(db.tickets) + ExpandTickets(show.id, data.ticketClasses)
      ensures db.bookings == old(db.bookings) && db.users == old(db.users)
    {
      show := Show(|db.shows| + 1, data.name, data.location, data.startTime,
                   totalTickets, totalTickets, data.description, data.performer);
      db.AddShow(show);
      AddTickets(show.id, data.ticketClasses);
    }

    /** The outer loop: the tickets of each class in turn. */
    method AddTickets(showId: ShowId, classes: seq<TicketClassInput>)
      requires db.Valid()
      modifies db
      ensures db.Valid()
      ensures db.tickets == old(db.tickets) + ExpandTickets(showId, classes)
      ensures db.shows == old(db.shows) && db.bookings == old(db.bookings) && db.users == old(db.users)
    {
      var k := 0;
      while k < |classes|
        invariant 0 <= k <= |classes|
        invariant db.Valid()
        invariant db.shows == old(db.shows) && db.bookings == old(db.bookings) && db.users == old(db.users)
        invariant db.tickets == old(db.tickets) + ExpandTickets(showId, classes[..k])
      {
        AddNextClass(showId, classes, k, old(db.tickets));
        k := k + 1;
      }
      assert classes[..k] == classes;
    }

    /** One round of the outer loop: class `k`'s tickets follow those of
        the classes before it. */
    method AddNextClass(showId: ShowId, classes: seq<TicketClassInput>, k: nat, ghost start: seq<Ticket>)
      requires db.Valid() && k < |classes|
      requires db.tickets == start + ExpandTickets(showId, classes[..k])
      modifies db
      ensures db.Valid()
      ensures db.tickets == start + ExpandTickets(showId, classes[..k + 1])
      ensures db.shows == old(db.shows) && db.bookings == old(db.bookings) && db.users == old(db.users)
    {
      AddClassTickets(showId, classes[k]);
      ExpandTicketsStep(showId, classes, k);
      AppendAssociative(start, ExpandTickets(showId, classes[..k]), ClassTickets(showId, classes[k]));
    }

    /** The inner loop: one ticket per unit of the class's quantity. */
    method AddClassTickets(showId: ShowId, c: TicketClassInput)
      requires db.Valid()
      modifies db
      ensures db.Valid()
      ensures db.tickets == old(db.tickets) + ClassTickets(showId, c)
      ensures db.shows == old(db.shows) && db.bookings == old(db.bookings) && db.users == old(db.users)
    {
      var n := if c.quantity > 0 then c.quantity else 0;
      var i := 0;
      while i < n
        invariant 0 <= i <= n
        invariant db.Valid()
        invariant db.shows == old(db.shows) && db.bookings == old(db.bookings) && db.users == old(db.users)
        invariant db.tickets == old(db.tickets) + ClassTicketsUpTo(showId, c, i)
      {
        AppendAssociative(old(db.tickets), ClassTicketsUpTo(showId, c, i), [ClassTicket(showId, c, i)]);
        db.AddTicket(ClassTicket(showId, c, i));
        i := i + 1;
      }
    }
  }
}

/**
 * The rows of the relational store and the request payloads they are built
 * from: bookings, tickets, shows and users, with their status enums.
 * Timestamps are whole seconds; prices are whole cents.
 */
module Models {
  import opened Wrappers

  type Time = int
  type UserId = int
  type TicketId = int
  type BookingId = int
  type ShowId = int

  /** Reservation window in seconds (`booking_ttl`), shared by the lock's
      expiry and the booking's deadline. */
  const BookingTtl: int := 600

  datatype BookingStatus = Reserved | Confirmed | Cancelled | Expired {
    /** The enum's string value, as stored and as sent in events. */
    function Value(): string {
      match this
      case Reserved => "reserved"
      case Confirmed => "confirmed"
      case Cancelled => "cancelled"
      case Expired => "expired"
    }

    predicate IsTerminal() {
      !Reserved?
    }
  }

  /** `BookingStatus(value)`: the member whose value is `s`, if any. */
  function ParseBookingStatus(s: string): (r: Option<BookingStatus>)
    ensures r.Some? ==> r.value.Value() == s
  {
    if s == "reserved" then Some(Reserved)
    else if s == "confirmed" then Some(Confirmed)
    else if s == "cancelled" then Some(Cancelled)
    else if s == "expired" then Some(Expired)
    else None
  }

  lemma ParseBookingStatusOfValue(st: BookingStatus)
    ensures ParseBookingStatus(st.Value()) == Some(st)
  {
  }

  /** The only moves the lifecycle allows: out of `reserved` into one of the
      three terminal states. */
  predicate CanTransition(from: BookingStatus, to: BookingStatus) {
    from == Reserved && to.IsTerminal()
  }

  datatype TicketStatus = TicketAvailable | TicketReserved | TicketSold {
    function Value(): string {
      match this
      case TicketAvailable => "available"
      case TicketReserved => "reserved"
      case TicketSold => "sold"
    }
  }

  datatype Booking = Booking(
    id: BookingId,
    userId: UserId,
    ticketId: TicketId,
    status: BookingStatus,
    createdAt: Time,
    confirmedAt: Option<Time>,
    cancelledAt: Option<Time>,
    expiresAt: Time)

  /** A ticket row; its id is its position in the ticket table. */
  datatype Ticket = Ticket(
    showId: ShowId,
    userId: Option<UserId>,
    status: TicketStatus,
    price: int,
    seat: string)

  /** Row ids are assigned 1, 2, 3, ... and rows are never deleted, so a
      booking's id is its position in the table plus one. */
  predicate IdsArePositions(bs: seq<Booking>) {
    forall i :: 0 <= i < |bs| ==> bs[i].id == i + 1
  }

  datatype Show = Show(
    id: ShowId,
    name: string,
    location: string,
    startTime: Time,
    totalTickets: int,
    availableTickets: int,
    description: Option<string>,
    performer: Option<string>)

  datatype User = User(id: UserId, name: string, email: string, roles: seq<string>)

  /** One entry of a show request's `ticket_classes`. */
  datatype TicketClassInput = TicketClassInput(ticketClass: string, price: int, quantity: int)

  datatype ShowCreate = ShowCreate(
    name: string,
    location: string,
    startTime: Time,
    description: Option<string>,
    performer: Option<string>,
    ticketClasses: seq<TicketClassInput>)

  /** What the request schema enforces before a handler runs: every price
      is positive and every quantity is non-negative. */
  predicate ValidClasses(classes: seq<TicketClassInput>) {
    forall k :: 0 <= k < |classes| ==> classes[k].price > 0 && classes[k].quantity >= 0
  }
}

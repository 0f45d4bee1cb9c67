/**
 * The three external stores the booking engine talks to, reduced to their
 * state: the relational tables, the Redis keyspace used for ticket locks,
 * and the Kafka channel as the log of messages handed to the producer.
 */
module Stores {
  import opened Wrappers
  import opened Models

  /** The relational tables. Rows get ids 1, 2, 3, ... in insertion order
      and the core never deletes one, so a row's id is its position + 1. */
  class Database {
    var shows: seq<Show>
    var tickets: seq<Ticket>
    var bookings: seq<Booking>
    var users: map<UserId, User>

    ghost predicate Valid()
      reads this
    {
      && (forall i :: 0 <= i < |shows| ==> shows[i].id == i + 1)
      && IdsArePositions(bookings)
      && (forall u :: u in users ==> users[u].id == u)
    }

    constructor (tickets: seq<Ticket>, users: map<UserId, User>)
      requires forall u :: u in users ==> users[u].id == u
      ensures Valid()
      ensures this.shows == [] && this.tickets == tickets && this.bookings == []
      ensures this.users == users
    {
      this.shows := [];
      this.tickets := tickets;
      this.bookings := [];
      this.users := users;
    }

    /** Writes back one booking row that keeps its id (an attribute
        assignment on a loaded row, then commit). */
    method UpdateBooking(i: nat, b: Booking)
      requires Valid() && i < |bookings| && b.id == i + 1
      modifies this
      ensures Valid()
      ensures bookings == old(bookings)[i := b]
      ensures shows == old(shows) && tickets == old(tickets) && users == old(users)
    {
      bookings := bookings[i := b];
    }

    /** Writes back one ticket row. */
    method UpdateTicket(i: nat, t: Ticket)
      requires Valid() && i < |tickets|
      modifies this
      ensures Valid()
      ensures tickets == old(tickets)[i := t]
      ensures shows == old(shows) && bookings == old(bookings) && users == old(users)
    {
      tickets := tickets[i := t];
    }

    /** `add(show)` and `flush()`: the show gets the next id. */
    method AddShow(show: Show)
      requires Valid() && show.id == |shows| + 1
      modifies this
      ensures Valid()
      ensures shows == old(shows) + [show]
      ensures tickets == old(tickets) && bookings == old(bookings) && users == old(users)
    {
      shows := shows + [show];
    }

    /** `add(ticket)`: the ticket gets the next id. */
    method AddTicket(t: Ticket)
      requires Valid()
      modifies this
      ensures Valid()
      ensures tickets == old(tickets) + [t]
      ensures shows == old(shows) && bookings == old(bookings) && users == old(users)
    {
      tickets := tickets + [t];
    }

    /** `query(Ticket).filter(Ticket.id == id).first()`. */
    function FindTicket(id: TicketId): (r: Option<Ticket>)
      reads this
      ensures r.Some? <==> 1 <= id <= |tickets|
      ensures r.Some? ==> r.value == tickets[id - 1]
    {
      if 1 <= id <= |tickets| then Some(tickets[id - 1]) else None
    }
  }

  /** The Redis keyspace: string keys to string values. Keys never expire in
      this model; see the README for the TTL. */
  class LockStore {
    var data: map<string, string>

    constructor ()
      ensures data == map[]
    {
      data := map[];
    }

    /** `SET key value NX`: stores the value only if the key is absent and
        reports whether it did. */
    method SetIfAbsent(key: string, value: string) returns (ok: bool)
      modifies this
      ensures ok <==> key !in old(data)
      ensures data == if ok then old(data)[key := value] else old(data)
    {
      ok := key !in data;
      if ok {
        data := data[key := value];
      }
    }

    /** `DEL key`: the number of keys removed (0 or 1). */
    method Delete(key: string) returns (removed: nat)
      modifies this
      ensures removed == if key in old(data) then 1 else 0
      ensures data == old(data) - {key}
    {
      removed := if key in data then 1 else 0;
      data := data - {key};
    }

    /** `GET key`. */
    method Get(key: string) returns (v: Option<string>)
      ensures v.Some? <==> key in data
      ensures v.Some? ==> v.value == data[key]
    {
      v := if key in data then Some(data[key]) else None;
    }
  }

  datatype EventType = BookingCreated | BookingConfirmed | BookingCancelled {
    /** The `event_type` string carried by the message. */
    function Name(): string {
      match this
      case BookingCreated => "booking_created"
      case BookingConfirmed => "booking_confirmed"
      case BookingCancelled => "booking_cancelled"
    }
  }

  /** The `booking` part of an event message; timestamps are `None` exactly
      when the booking's timestamp is absent. */
  datatype BookingData = BookingData(
    id: BookingId,
    userId: UserId,
    ticketId: TicketId,
    status: string,
    createdAt: Option<Time>,
    confirmedAt: Option<Time>,
    cancelledAt: Option<Time>,
    expiresAt: Option<Time>)

  datatype UserData = UserData(id: UserId, name: string, email: string)

  datatype Event = Event(eventType: EventType, booking: BookingData, user: UserData)

  /** The Kafka producer, as the sequence of messages handed to it. Delivery
      failures are logged and swallowed by the sender, so the log records
      every emission whether or not the broker accepted it. */
  class EventProducer {
    ghost var sent: seq<Event>

    constructor ()
      ensures sent == []
    {
      sent := [];
    }

    method Send(e: Event)
      modifies this
      ensures sent == old(sent) + [e]
    {
      sent := sent + [e];
    }
  }
}

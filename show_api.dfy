/**
 * The show-creation endpoint: the ticket total, the rejection of a show
 * with no tickets, and the wrapping of errors into responses.
 */
module ShowApi {
  import opened Wrappers
  import opened Decimal
  import opened Models
  import opened Stores
  import opened ShowDao
  import opened Http

  const NoTickets: string := "At least one ticket must be created"
  const ShowErrorPrefix: string := "Error creating show: "

  /** `sum(ticket_class.quantity for ticket_class in ticket_classes)`. */
  function TotalTickets(classes: seq<TicketClassInput>): (n: int)
    ensures ValidClasses(classes) ==> n >= 0
    decreases |classes|
  {
    if |classes| == 0 then 0 else TotalTickets(classes[..|classes| - 1]) + classes[|classes| - 1].quantity
  }

  /** With non-negative quantities the total counts exactly the tickets the
      expansion loop creates. */
  lemma {:induction false} TotalTicketsCountsTickets(showId: ShowId, classes: seq<TicketClassInput>)
    requires ValidClasses(classes)
    ensures TotalTickets(classes) >= 0
    ensures |ExpandTickets(showId, classes)| == TotalTickets(classes)
    decreases |classes|
  {
    if |classes| > 0 {
      TotalTicketsCountsTickets(showId, classes[..|classes| - 1]);
    }
  }

  /** With non-negative quantities the total is 0 exactly when every class
      has quantity 0 (the empty list included). */
  lemma {:induction false} TotalTicketsZero(classes: seq<TicketClassInput>)
    requires ValidClasses(classes)
    ensures TotalTickets(classes) == 0 <==> forall k :: 0 <= k < |classes| ==> classes[k].quantity == 0
    decreases |classes|
  {
    if |classes| > 0 {
      var front := classes[..|classes| - 1];
      assert forall k :: 0 <= k < |front| ==> front[k] == classes[k];
      TotalTicketsZero(front);
    }
  }

  /** An exception raised inside the handler's `try`: the handler's own
      `HTTPException`, or an error from the database session. */
  datatype Raised = HttpRaised(code: int, detail: string) | DbError(message: string)

  /** How the `try` body of `create_show` ends. */
  datatype Outcome = Created(show: Show) | Threw(error: Raised)

  /** The `try` body: sum the quantities, reject a zero total, otherwise
      create the show and its tickets. `dbError` is the error the session
      raises while creating them, if any; the rollback that follows discards
      the uncommitted rows, so the tables end as they were. */
  method CreateShowSteps(dao: ShowDao, data: ShowCreate, dbError: Option<string>) returns (o: Outcome)
    requires dao.db.Valid() && ValidClasses(data.ticketClasses)
    modifies dao.db
    ensures dao.db.Valid()
    ensures dao.db.bookings == old(dao.db.bookings) && dao.db.users == old(dao.db.users)
    ensures TotalTickets(data.ticketClasses) == 0 ==>
      o == Threw(HttpRaised(400, NoTickets)) && Untouched(dao.db, old(dao.db.shows), old(dao.db.tickets))
    ensures TotalTickets(data.ticketClasses) != 0 && dbError.Some? ==>
      o == Threw(DbError(dbError.value)) && Untouched(dao.db, old(dao.db.shows), old(dao.db.tickets))
    ensures TotalTickets(data.ticketClasses) != 0 && dbError.None? ==>
      && o.Created?
      && o.show == Show(|old(dao.db.shows)| + 1, data.name, data.location, data.startTime,
                        TotalTickets(data.ticketClasses), TotalTickets(data.ticketClasses),
                        data.description, data.performer)
      && dao.db.shows == old(dao.db.shows) + [o.show]
      && dao.db.tickets == old(dao.db.tickets) + ExpandTickets(o.show.id, data.ticketClasses)
  {
    var total := 0;
    var k := 0;
    while k < |data.ticketClasses|
      invariant 0 <= k <= |data.ticketClasses|
      invariant total == TotalTickets(data.ticketClasses[..k])
    {
      assert data.ticketClasses[..k + 1][..k] == data.ticketClasses[..k];
      total := total + data.ticketClasses[k].quantity;
      k := k + 1;
    }
    assert data.ticketClasses[..k] == data.ticketClasses;
    if total == 0 {
      return Threw(HttpRaised(400, NoTickets));
    }
    if dbError.Some? {
      return Threw(DbError(dbError.value));
    }
    var show := dao.CreateShowWithTickets(data, total);
    o := Created(show);
  }

  ghost predicate Untouched(db: Database, shows: seq<Show>, tickets: seq<Ticket>)
    reads db
  {
    db.shows == shows && db.tickets == tickets
  }

  /** `str(e)` for what the handler catches. */
  function RaisedText(e: Raised): string {
    match e
    case HttpRaised(code, detail) => ExceptionText(code, detail)
    case DbError(message) => message
  }

  /** The `except Exception` clause as written: every exception, the
      handler's own 400 included, becomes a 500. */
  function ShowErrorAsWritten(e: Raised): (r: Response<Show>)
    ensures r.Failure? && r.code == 500
    ensures r.detail == ShowErrorPrefix + RaisedText(e)
  {
    Failure(500, ShowErrorPrefix + RaisedText(e))
  }

  /** The evidently intended wrapping: an `HTTPException` passes through,
      anything else becomes a 500. */
  function ShowError(e: Raised): (r: Response<Show>)
    ensures e.HttpRaised? ==> r == Failure(e.code, e.detail)
    ensures e.DbError? ==> r == Failure(500, ShowErrorPrefix + e.message)
  {
    match e
    case HttpRaised(code, detail) => Failure(code, detail)
    case DbError(message) => Failure(500, ShowErrorPrefix + message)
  }

  /** The discrepancy: as written, a request with no tickets gets a 500
      whose detail embeds the 400, where a 400 was meant. */
  lemma ZeroTotalBecomes500()
    ensures ShowErrorAsWritten(HttpRaised(400, NoTickets))
         == Failure(500, ShowErrorPrefix + "400: " + NoTickets)
    ensures ShowError(HttpRaised(400, NoTickets)) == Failure(400, NoTickets)
  {
    assert IntToString(400) == "400" by {
      assert ToDecimal(4) == "4";
      assert ToDecimal(40) == "40";
      assert ToDecimal(400) == ToDecimal(40) + [DigitChar(0)];
    }
    assert RaisedText(HttpRaised(400, NoTickets)) == "400: " + NoTickets;
  }

  /** `create_show` as written. */
  method CreateShowAsWritten(dao: ShowDao, data: ShowCreate, dbError: Option<string>) returns (r: Response<Show>)
    requires dao.db.Valid() && ValidClasses(data.ticketClasses)
    modifies dao.db
    ensures dao.db.Valid()
    ensures dao.db.bookings == old(dao.db.bookings) && dao.db.users == old(dao.db.users)
    ensures r.Failure? ==> r.code == 500 && Untouched(dao.db, old(dao.db.shows), old(dao.db.tickets))
    ensures TotalTickets(data.ticketClasses) == 0 ==> r == Failure(500, ShowErrorPrefix + "400: " + NoTickets)
    ensures r.Ok? <==> TotalTickets(data.ticketClasses) != 0 && dbError.None?
  {
    var o := CreateShowSteps(dao, data, dbError);
    match o
    case Created(show) =>
      r := Ok(show);
    case Threw(e) =>
      ZeroTotalBecomes500();
      r := ShowErrorAsWritten(e);
  }

  /** `create_show` with an `HTTPException` passed through: a request with
      no tickets gets its 400, a database error a 500, and neither leaves a
      row behind; a success creates the show with the summed total and
      exactly that many tickets. */
  method CreateShow(dao: ShowDao, data: ShowCreate, dbError: Option<string>) returns (r: Response<Show>)
    requires dao.db.Valid() && ValidClasses(data.ticketClasses)
    modifies dao.db
    ensures dao.db.Valid()
    ensures dao.db.bookings == old(dao.db.bookings) && dao.db.users == old(dao.db.users)
    ensures r.Failure? ==> Untouched(dao.db, old(dao.db.shows), old(dao.db.tickets))
    ensures r == Failure(400, NoTickets) <==> forall k :: 0 <= k < |data.ticketClasses| ==> data.ticketClasses[k].quantity == 0
    ensures r.Failure? && r.code == 500 <==> TotalTickets(data.ticketClasses) != 0 && dbError.Some?
    ensures r.Ok? ==>
      && r.value.totalTickets == r.value.availableTickets == TotalTickets(data.ticketClasses) > 0
      && dao.db.shows == old(dao.db.shows) + [r.value]
      && dao.db.tickets == old(dao.db.tickets) + ExpandTickets(r.value.id, data.ticketClasses)
      && |dao.db.tickets| == |old(dao.db.tickets)| + r.value.totalTickets
  {
    TotalTicketsZero(data.ticketClasses);
    var o := CreateShowSteps(dao, data, dbError);
    match o
    case Created(show) =>
      TotalTicketsCountsTickets(show.id, data.ticketClasses);
      r := Ok(show);
    case Threw(e) =>
      r := ShowError(e);
  }
}

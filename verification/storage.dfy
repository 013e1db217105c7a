/** The storage layer of the booking server (`DatabaseStorage`): each table is
    an in-memory sequence of rows in table order. A query that keeps one row
    (`const [row] = await db.select()...`) keeps the first matching row. */
module Storage {
  import opened Common
  import opened Schema

  // ---------------------------------------------------------------------
  // Single-row lookups by key
  // ---------------------------------------------------------------------

  function AirlineById(t: Tables, id: Id): Option<Airline>
  {
    FirstWhere(t.airlines, (a: Airline) => a.id == id)
  }

  function AirportById(t: Tables, id: Id): Option<Airport>
  {
    FirstWhere(t.airports, (a: Airport) => a.id == id)
  }

  /** `getAirportByCode`. */
  function AirportByCode(t: Tables, code: string): Option<Airport>
  {
    FirstWhere(t.airports, (a: Airport) => a.code == code)
  }

  function FlightRow(t: Tables, id: Id): Option<Flight>
  {
    FirstWhere(t.flights, (f: Flight) => f.id == id)
  }

  function BookingRow(t: Tables, id: Id): Option<Booking>
  {
    FirstWhere(t.bookings, (b: Booking) => b.id == id)
  }

  predicate HasAirline(t: Tables, id: Id)
  {
    exists i :: 0 <= i < |t.airlines| && t.airlines[i].id == id
  }

  predicate HasAirport(t: Tables, id: Id)
  {
    exists i :: 0 <= i < |t.airports| && t.airports[i].id == id
  }

  /** The id column of the seat, booking and passenger tables (the tables
      the booking service writes) holds no value twice. */
  ghost predicate KeysUnique(t: Tables)
  {
    && (forall i, j :: 0 <= i < j < |t.seats| ==> t.seats[i].id != t.seats[j].id)
    && (forall i, j :: 0 <= i < j < |t.bookings| ==> t.bookings[i].id != t.bookings[j].id)
    && (forall i, j :: 0 <= i < j < |t.passengers| ==> t.passengers[i].id != t.passengers[j].id)
  }

  // ---------------------------------------------------------------------
  // Joins
  // ---------------------------------------------------------------------

  /** A flight row joined with its airline and its two airports; nothing
      when any of the three is missing. */
  function FlightDetails(t: Tables, f: Flight): Option<FlightWithDetails>
  {
    var airline := AirlineById(t, f.airlineId);
    var originAirport := AirportById(t, f.originAirportId);
    var destinationAirport := AirportById(t, f.destinationAirportId);
    if airline.None? || originAirport.None? || destinationAirport.None? then None
    else Some(FlightWithDetails(f, airline.value, originAirport.value, destinationAirport.value))
  }

  /** The join succeeds exactly when the airline and both airports exist, and
      then carries the flight and rows of those tables with the flight's ids. */
  lemma FlightDetailsJoin(t: Tables, f: Flight)
    ensures FlightDetails(t, f).Some? <==>
      HasAirline(t, f.airlineId) && HasAirport(t, f.originAirportId) && HasAirport(t, f.destinationAirportId)
    ensures FlightDetails(t, f).Some? ==>
      var d := FlightDetails(t, f).value;
      && d.flight == f
      && d.airline in t.airlines && d.airline.id == f.airlineId
      && d.originAirport in t.airports && d.originAirport.id == f.originAirportId
      && d.destinationAirport in t.airports && d.destinationAirport.id == f.destinationAirportId
  {
    FirstWhereSpec(t.airlines, (a: Airline) => a.id == f.airlineId);
    FirstWhereSpec(t.airports, (a: Airport) => a.id == f.originAirportId);
    FirstWhereSpec(t.airports, (a: Airport) => a.id == f.destinationAirportId);
  }

  /** `getFlightById`. */
  function FlightById(t: Tables, id: Id): Option<FlightWithDetails>
  {
    match FlightRow(t, id)
    case None => None
    case Some(f) => FlightDetails(t, f)
  }

  /** A flight found by id is the join of a flight row with that id; there is
      none when no flight row has that id. */
  lemma FlightByIdSpec(t: Tables, id: Id)
    ensures FlightById(t, id).Some? ==>
      var d := FlightById(t, id).value;
      d.flight in t.flights && d.flight.id == id && FlightDetails(t, d.flight) == Some(d)
    ensures (forall i :: 0 <= i < |t.flights| ==> t.flights[i].id != id) ==> FlightById(t, id).None?
  {
    FirstWhereSpec(t.flights, (f: Flight) => f.id == id);
    var row := FlightRow(t, id);
    if row.Some? {
      FlightDetailsJoin(t, row.value);
    }
  }

  /** `getSeatsByFlightId`. */
  function SeatsByFlightId(t: Tables, flightId: Id): seq<Seat>
  {
    Filter(t.seats, (s: Seat) => s.flightId == flightId)
  }

  /** Exactly the seat rows of that flight, in table order. */
  lemma SeatsByFlightIdSpec(t: Tables, flightId: Id)
    ensures var r := SeatsByFlightId(t, flightId);
      && (forall i :: 0 <= i < |r| ==> r[i] in t.seats && r[i].flightId == flightId)
      && (forall i :: 0 <= i < |t.seats| && t.seats[i].flightId == flightId ==> t.seats[i] in r)
      && SubsequenceOf(r, t.seats)
  {
    FilterIsSubsequence(t.seats, (s: Seat) => s.flightId == flightId);
    FilterMembers(t.seats, (s: Seat) => s.flightId == flightId);
  }

  /** `getPassengersByBookingId`. */
  function PassengersByBookingId(t: Tables, bookingId: Id): seq<Passenger>
  {
    Filter(t.passengers, (p: Passenger) => p.bookingId == bookingId)
  }

  /** Exactly the passenger rows of that booking, in table order. */
  lemma PassengersByBookingIdSpec(t: Tables, bookingId: Id)
    ensures var r := PassengersByBookingId(t, bookingId);
      && (forall i :: 0 <= i < |r| ==> r[i] in t.passengers && r[i].bookingId == bookingId)
      && (forall i :: 0 <= i < |t.passengers| && t.passengers[i].bookingId == bookingId ==> t.passengers[i] in r)
      && SubsequenceOf(r, t.passengers)
  {
    FilterIsSubsequence(t.passengers, (p: Passenger) => p.bookingId == bookingId);
    FilterMembers(t.passengers, (p: Passenger) => p.bookingId == bookingId);
  }

  /** A booking row joined with its flight and passengers; nothing when its
      flight does not resolve. */
  function BookingDetails(t: Tables, b: Booking): Option<BookingWithDetails>
  {
    match FlightById(t, b.flightId)
    case None => None
    case Some(flight) => Some(BookingWithDetails(b, flight, PassengersByBookingId(t, b.id)))
  }

  /** `getBookingById`. */
  function BookingById(t: Tables, id: Id): Option<BookingWithDetails>
  {
    match BookingRow(t, id)
    case None => None
    case Some(b) => BookingDetails(t, b)
  }

  /** A booking found by id is the join of a booking row with that id; there
      is none when no booking row has that id. */
  lemma BookingByIdSpec(t: Tables, id: Id)
    ensures BookingById(t, id).Some? ==>
      var x := BookingById(t, id).value;
      x.booking in t.bookings && x.booking.id == id && BookingDetails(t, x.booking) == Some(x)
    ensures (forall i :: 0 <= i < |t.bookings| ==> t.bookings[i].id != id) ==> BookingById(t, id).None?
  {
    FirstWhereSpec(t.bookings, (b: Booking) => b.id == id);
  }

  function ResolvedFlights(t: Tables): seq<FlightWithDetails>
  {
    FilterMap(t.flights, (f: Flight) => FlightDetails(t, f))
  }

  /** The where-clause of `searchFlights`: route and departure within the
      searched day's window [dayStart, dayEnd]. */
  predicate OnSearchedRoute(f: Flight, originId: Id, destinationId: Id, dayStart: int, dayEnd: int)
  {
    f.originAirportId == originId && f.destinationAirportId == destinationId
    && dayStart <= f.departureTime <= dayEnd
  }

  function SearchCandidates(t: Tables, originId: Id, destinationId: Id, dayStart: int, dayEnd: int): seq<Flight>
  {
    Filter(t.flights, (f: Flight) => OnSearchedRoute(f, originId, destinationId, dayStart, dayEnd))
  }

  /** A search hit joined with its airline and the two airports found by code. */
  function SearchDetails(t: Tables, f: Flight, origin: Airport, destination: Airport): Option<FlightWithDetails>
  {
    match AirlineById(t, f.airlineId)
    case None => None
    case Some(airline) => Some(FlightWithDetails(f, airline, origin, destination))
  }

  /** What `searchFlights` returns. */
  function SearchResults(t: Tables, origin: string, destination: string, dayStart: int, dayEnd: int): seq<FlightWithDetails>
  {
    match (AirportByCode(t, origin), AirportByCode(t, destination))
    case (Some(o), Some(d)) =>
      FilterMap(SearchCandidates(t, o.id, d.id, dayStart, dayEnd), (f: Flight) => SearchDetails(t, f, o, d))
    case _ => []
  }

  /** What `enrichBookings` returns for a list of booking rows. */
  function EnrichedBookings(t: Tables, bookingList: seq<Booking>): seq<BookingWithDetails>
  {
    FilterMap(bookingList, (b: Booking) => BookingDetails(t, b))
  }

  // ---------------------------------------------------------------------
  // Row updates
  // ---------------------------------------------------------------------

  /** `update seats set isAvailable where id = seatId`. */
  function SetSeatAvailability(seats: seq<Seat>, seatId: Id, isAvailable: bool): seq<Seat>
  {
    MapSeq(seats, (s: Seat) => if s.id == seatId then s.(isAvailable := isAvailable) else s)
  }

  /** `update bookings set status, updatedAt where id = bookingId`. */
  function SetBookingStatus(bookings: seq<Booking>, bookingId: Id, status: string, now: int): seq<Booking>
  {
    MapSeq(bookings, (b: Booking) => if b.id == bookingId then b.(status := status, updatedAt := now) else b)
  }

  /** `updateSeatAvailability(id, isAvailable)` called for each id in turn. */
  function SetEachSeat(seats: seq<Seat>, seatIds: seq<Id>, isAvailable: bool): seq<Seat>
  {
    if seatIds == [] then seats
    else SetSeatAvailability(SetEachSeat(seats, seatIds[..|seatIds| - 1], isAvailable), seatIds[|seatIds| - 1], isAvailable)
  }

  // ---------------------------------------------------------------------
  // Properties of the table semantics
  // ---------------------------------------------------------------------

  /** Updating a seat's availability touches the availability of the rows
      with that id and nothing else; an unknown id changes nothing. */
  lemma UpdateSeatAvailabilityOnlyThatSeat(seats: seq<Seat>, seatId: Id, isAvailable: bool)
    ensures var r := SetSeatAvailability(seats, seatId, isAvailable);
      && |r| == |seats|
      && (forall k :: 0 <= k < |seats| && seats[k].id == seatId ==> r[k] == seats[k].(isAvailable := isAvailable))
      && (forall k :: 0 <= k < |seats| && seats[k].id != seatId ==> r[k] == seats[k])
      && ((forall k :: 0 <= k < |seats| ==> seats[k].id != seatId) ==> r == seats)
  {
  }

  /** Updating a booking's status touches only that booking's status and
      update time; every other booking is unchanged. */
  lemma UpdateBookingStatusOnlyThatBooking(bookings: seq<Booking>, bookingId: Id, status: string, now: int)
    ensures var r := SetBookingStatus(bookings, bookingId, status, now);
      && |r| == |bookings|
      && (forall k :: 0 <= k < |bookings| && bookings[k].id == bookingId ==> r[k] == bookings[k].(status := status, updatedAt := now))
      && (forall k :: 0 <= k < |bookings| && bookings[k].id != bookingId ==> r[k] == bookings[k])
  {
  }

  /** Setting a list of seats one by one: a seat row is changed exactly when
      its id is in the list, whatever its prior availability. */
  lemma {:induction false} SetEachSeatEffect(seats: seq<Seat>, seatIds: seq<Id>, isAvailable: bool)
    ensures var r := SetEachSeat(seats, seatIds, isAvailable);
      && |r| == |seats|
      && forall k :: 0 <= k < |seats| ==>
           r[k] == if seats[k].id in seatIds then seats[k].(isAvailable := isAvailable) else seats[k]
  {
    if seatIds != [] {
      var init := seatIds[..|seatIds| - 1];
      var last := seatIds[|seatIds| - 1];
      assert seatIds == init + [last];
      SetEachSeatEffect(seats, init, isAvailable);
    }
  }

  /** One more id in the list is one more single-seat update at the end. */
  lemma SetEachSeatSnoc(seats: seq<Seat>, seatIds: seq<Id>, seatId: Id, isAvailable: bool)
    ensures SetEachSeat(seats, seatIds + [seatId], isAvailable)
         == SetSeatAvailability(SetEachSeat(seats, seatIds, isAvailable), seatId, isAvailable)
  {
    assert (seatIds + [seatId])[..|seatIds|] == seatIds;
  }

  /** Setting the same status at the same instant twice is setting it once. */
  lemma SetBookingStatusTwice(bookings: seq<Booking>, id: Id, status: string, now: int)
    ensures SetBookingStatus(SetBookingStatus(bookings, id, status, now), id, status, now)
         == SetBookingStatus(bookings, id, status, now)
  {
  }

  /** Setting the same seats to the same availability twice is setting them once. */
  lemma SetEachSeatTwice(seats: seq<Seat>, seatIds: seq<Id>, isAvailable: bool)
    ensures SetEachSeat(SetEachSeat(seats, seatIds, isAvailable), seatIds, isAvailable)
         == SetEachSeat(seats, seatIds, isAvailable)
  {
    var once := SetEachSeat(seats, seatIds, isAvailable);
    SetEachSeatEffect(seats, seatIds, isAvailable);
    SetEachSeatEffect(once, seatIds, isAvailable);
  }

  /** With unique flight ids, `getFlightById` is the join of that one row:
      undefined exactly when its airline or one of its airports is missing. */
  lemma {:induction false} FlightByIdOfUniqueRow(t: Tables, id: Id, i: nat)
    requires i < |t.flights| && t.flights[i].id == id
    requires forall j :: 0 <= j < |t.flights| && j != i ==> t.flights[j].id != id
    ensures FlightById(t, id) == FlightDetails(t, t.flights[i])
    ensures FlightById(t, id).None? <==>
      !HasAirline(t, t.flights[i].airlineId) || !HasAirport(t, t.flights[i].originAirportId) || !HasAirport(t, t.flights[i].destinationAirportId)
  {
    FirstWhereSpec(t.flights, (f: Flight) => f.id == id);
    assert FlightRow(t, id).Some?;
    var k :| 0 <= k < |t.flights| && t.flights[k] == FlightRow(t, id).value && t.flights[k].id == id;
    assert k == i;
    FlightDetailsJoin(t, t.flights[i]);
  }

  /** With unique booking ids, `getBookingById` is undefined exactly when the
      booking's flight does not resolve. */
  lemma {:induction false} BookingByIdOfUniqueRow(t: Tables, id: Id, i: nat)
    requires i < |t.bookings| && t.bookings[i].id == id
    requires forall j :: 0 <= j < |t.bookings| && j != i ==> t.bookings[j].id != id
    ensures BookingById(t, id) == BookingDetails(t, t.bookings[i])
    ensures BookingById(t, id).None? <==> FlightById(t, t.bookings[i].flightId).None?
  {
    FirstWhereSpec(t.bookings, (b: Booking) => b.id == id);
    assert BookingRow(t, id).Some?;
    var k :| 0 <= k < |t.bookings| && t.bookings[k] == BookingRow(t, id).value && t.bookings[k].id == id;
    assert k == i;
  }

  /** `getFlights` keeps table order and drops the flights whose airline or
      airports do not resolve; each kept flight carries its own join. */
  lemma GetFlightsKeepsResolvableInOrder(t: Tables)
    ensures MapSeq(ResolvedFlights(t), (d: FlightWithDetails) => d.flight)
         == Filter(t.flights, (f: Flight) => FlightDetails(t, f).Some?)
    ensures forall i :: 0 <= i < |ResolvedFlights(t)| ==>
      FlightDetails(t, ResolvedFlights(t)[i].flight) == Some(ResolvedFlights(t)[i])
  {
    var lookup := (f: Flight) => FlightDetails(t, f);
    FilterMapKeys(t.flights, lookup, (d: FlightWithDetails) => d.flight, (f: Flight) => FlightDetails(t, f).Some?);
    FilterMapFound(t.flights, lookup);
  }

  /** `searchFlights`: nothing when either airport code is unknown; otherwise
      the flights on that route departing within the day's window whose
      airline exists, in table order, joined with the airports found by code. */
  lemma SearchFlightsSemantics(t: Tables, origin: string, destination: string, dayStart: int, dayEnd: int)
    ensures AirportByCode(t, origin).None? || AirportByCode(t, destination).None? ==>
      SearchResults(t, origin, destination, dayStart, dayEnd) == []
    ensures AirportByCode(t, origin).Some? && AirportByCode(t, destination).Some? ==>
      var o, d := AirportByCode(t, origin).value, AirportByCode(t, destination).value;
      var r := SearchResults(t, origin, destination, dayStart, dayEnd);
      && MapSeq(r, (x: FlightWithDetails) => x.flight)
         == Filter(t.flights, (f: Flight) => OnSearchedRoute(f, o.id, d.id, dayStart, dayEnd) && HasAirline(t, f.airlineId))
      && forall i :: 0 <= i < |r| ==>
           r[i].originAirport == o && r[i].destinationAirport == d
           && r[i].airline in t.airlines && r[i].airline.id == r[i].flight.airlineId
  {
    if AirportByCode(t, origin).Some? && AirportByCode(t, destination).Some? {
      var o, d := AirportByCode(t, origin).value, AirportByCode(t, destination).value;
      SearchHitsInOrder(t, o, d, dayStart, dayEnd);
      SearchHitsJoined(t, o, d, dayStart, dayEnd);
    }
  }

  lemma SearchHitsInOrder(t: Tables, o: Airport, d: Airport, dayStart: int, dayEnd: int)
    ensures MapSeq(FilterMap(SearchCandidates(t, o.id, d.id, dayStart, dayEnd), (f: Flight) => SearchDetails(t, f, o, d)),
                   (x: FlightWithDetails) => x.flight)
         == Filter(t.flights, (f: Flight) => OnSearchedRoute(f, o.id, d.id, dayStart, dayEnd) && HasAirline(t, f.airlineId))
  {
    var onRoute := (f: Flight) => OnSearchedRoute(f, o.id, d.id, dayStart, dayEnd);
    var lookup := (f: Flight) => SearchDetails(t, f, o, d);
    var hasAirline := (f: Flight) => HasAirline(t, f.airlineId);
    forall f: Flight ensures hasAirline(f) == lookup(f).Some? {
      FirstWhereSpec(t.airlines, (a: Airline) => a.id == f.airlineId);
    }
    FilterMapKeys(Filter(t.flights, onRoute), lookup, (x: FlightWithDetails) => x.flight, hasAirline);
    FilterFilter(t.flights, onRoute, hasAirline,
      (f: Flight) => OnSearchedRoute(f, o.id, d.id, dayStart, dayEnd) && HasAirline(t, f.airlineId));
  }

  lemma SearchHitsJoined(t: Tables, o: Airport, d: Airport, dayStart: int, dayEnd: int)
    ensures var r := FilterMap(SearchCandidates(t, o.id, d.id, dayStart, dayEnd), (f: Flight) => SearchDetails(t, f, o, d));
      forall i :: 0 <= i < |r| ==>
        r[i].originAirport == o && r[i].destinationAirport == d
        && r[i].airline in t.airlines && r[i].airline.id == r[i].flight.airlineId
  {
    var candidates := SearchCandidates(t, o.id, d.id, dayStart, dayEnd);
    var lookup := (f: Flight) => SearchDetails(t, f, o, d);
    FilterMapFound(candidates, lookup);
    forall f: Flight | lookup(f).Some?
      ensures lookup(f).value.airline in t.airlines && lookup(f).value.airline.id == f.airlineId
    {
      FirstWhereSpec(t.airlines, (a: Airline) => a.id == f.airlineId);
    }
  }

  /** `enrichBookings` keeps list order and drops the bookings whose flight
      does not resolve; each kept booking carries its flight and passengers. */
  lemma EnrichBookingsKeepsResolvableInOrder(t: Tables, bookingList: seq<Booking>)
    ensures MapSeq(EnrichedBookings(t, bookingList), (x: BookingWithDetails) => x.booking)
         == Filter(bookingList, (b: Booking) => FlightById(t, b.flightId).Some?)
    ensures forall i :: 0 <= i < |EnrichedBookings(t, bookingList)| ==>
      var x := EnrichedBookings(t, bookingList)[i];
      Some(x.flight) == FlightById(t, x.booking.flightId) && x.passengers == PassengersByBookingId(t, x.booking.id)
  {
    var lookup := (b: Booking) => BookingDetails(t, b);
    FilterMapKeys(bookingList, lookup, (x: BookingWithDetails) => x.booking, (b: Booking) => FlightById(t, b.flightId).Some?);
    FilterMapFound(bookingList, lookup);
  }

  // ---------------------------------------------------------------------
  // The storage object
  // ---------------------------------------------------------------------

  /** A booking row as the caller supplies it (`InsertBooking`). */
  datatype NewBooking = NewBooking(
    userId: Id, flightId: Id, status: string, totalAmount: real,
    paymentStatus: string, paymentMethod: string)

  /** A passenger row as the caller supplies it (`InsertPassenger`). */
  datatype NewPassenger = NewPassenger(
    bookingId: Id, title: string, firstName: string, lastName: string,
    dateOfBirth: int, passportNumber: Option<string>, seatId: Option<Id>)

  /** `DatabaseStorage`. Keys generated by the database on insert, and the
      clock read by `updatedAt`, are passed in by the caller. */
  class DatabaseStorage {
    var airports: seq<Airport>
    var airlines: seq<Airline>
    var flights: seq<Flight>
    var seats: seq<Seat>
    var bookings: seq<Booking>
    var passengers: seq<Passenger>

    constructor (t: Tables)
      ensures Snapshot() == t
    {
      airports, airlines, flights := t.airports, t.airlines, t.flights;
      seats, bookings, passengers := t.seats, t.bookings, t.passengers;
    }

    /** The current contents of every table. */
    function Snapshot(): Tables
      reads this
    {
      Tables(airports, airlines, flights, seats, bookings, passengers)
    }

    method UpdateSeatAvailability(seatId: Id, isAvailable: bool)
      modifies this
      ensures Snapshot() == old(Snapshot()).(seats := SetSeatAvailability(old(seats), seatId, isAvailable))
    {
      seats := SetSeatAvailability(seats, seatId, isAvailable);
    }

    method UpdateBookingStatus(id: Id, status: string, now: int)
      modifies this
      ensures Snapshot() == old(Snapshot()).(bookings := SetBookingStatus(old(bookings), id, status, now))
    {
      bookings := SetBookingStatus(bookings, id, status, now);
    }

    /** Inserts one booking row carrying the given PNR and returns it. */
    method CreateBooking(values: NewBooking, pnr: string, id: Id, now: int) returns (created: Booking)
      modifies this
      ensures created == Booking(id, pnr, values.userId, values.flightId, values.status,
                                 values.totalAmount, values.paymentStatus, values.paymentMethod, now)
      ensures Snapshot() == old(Snapshot()).(bookings := old(bookings) + [created])
    {
      created := Booking(id, pnr, values.userId, values.flightId, values.status,
                         values.totalAmount, values.paymentStatus, values.paymentMethod, now);
      bookings := bookings + [created];
    }

    /** Inserts one passenger row and returns it. */
    method CreatePassenger(values: NewPassenger, id: Id) returns (created: Passenger)
      modifies this
      ensures created == Passenger(id, values.bookingId, values.title, values.firstName, values.lastName,
                                   values.dateOfBirth, values.passportNumber, values.seatId)
      ensures Snapshot() == old(Snapshot()).(passengers := old(passengers) + [created])
    {
      created := Passenger(id, values.bookingId, values.title, values.firstName, values.lastName,
                           values.dateOfBirth, values.passportNumber, values.seatId);
      passengers := passengers + [created];
    }

    /** Every flight whose airline and airports resolve, joined with them. */
    method GetFlights() returns (result: seq<FlightWithDetails>)
      ensures result == ResolvedFlights(Snapshot())
    {
      var t := Snapshot();
      var flightList := flights;
      result := [];
      var i := 0;
      while i < |flightList|
        invariant 0 <= i <= |flightList|
        invariant result == FilterMap(flightList[..i], (f: Flight) => FlightDetails(t, f))
      {
        var flight := flightList[i];
        var airline := AirlineById(t, flight.airlineId);
        var originAirport := AirportById(t, flight.originAirportId);
        var destinationAirport := AirportById(t, flight.destinationAirportId);
        ghost var resolved := airline.Some? && originAirport.Some? && destinationAirport.Some?;
        assert FilterMap(flightList[..i + 1], (f: Flight) => FlightDetails(t, f))
            == FilterMap(flightList[..i], (f: Flight) => FlightDetails(t, f))
               + if resolved then [FlightWithDetails(flight, airline.value, originAirport.value, destinationAirport.value)] else []
        by {
          assert flightList[..i + 1] == flightList[..i] + [flight];
          FilterMapSnoc(flightList[..i], flight, (f: Flight) => FlightDetails(t, f));
        }
        if airline.Some? && originAirport.Some? && destinationAirport.Some? {
          result := result + [FlightWithDetails(flight, airline.value, originAirport.value, destinationAirport.value)];
        }
        i := i + 1;
      }
      assert flightList[..i] == flightList;
    }

    /** Flights between the two airport codes departing within [dayStart, dayEnd]. */
    method SearchFlights(origin: string, destination: string, dayStart: int, dayEnd: int)
      returns (result: seq<FlightWithDetails>)
      ensures result == SearchResults(Snapshot(), origin, destination, dayStart, dayEnd)
    {
      var t := Snapshot();
      var originAirport := AirportByCode(t, origin);
      var destAirport := AirportByCode(t, destination);
      if originAirport.None? || destAirport.None? {
        return [];
      }
      var o, d := originAirport.value, destAirport.value;
      var flightList := SearchCandidates(t, o.id, d.id, dayStart, dayEnd);
      result := [];
      var i := 0;
      while i < |flightList|
        invariant 0 <= i <= |flightList|
        invariant result == FilterMap(flightList[..i], (f: Flight) => SearchDetails(t, f, o, d))
      {
        var flight := flightList[i];
        var airline := AirlineById(t, flight.airlineId);
        assert FilterMap(flightList[..i + 1], (f: Flight) => SearchDetails(t, f, o, d))
            == FilterMap(flightList[..i], (f: Flight) => SearchDetails(t, f, o, d))
               + if airline.Some? then [FlightWithDetails(flight, airline.value, o, d)] else []
        by {
          assert flightList[..i + 1] == flightList[..i] + [flight];
          FilterMapSnoc(flightList[..i], flight, (f: Flight) => SearchDetails(t, f, o, d));
        }
        if airline.Some? {
          result := result + [FlightWithDetails(flight, airline.value, o, d)];
        }
        i := i + 1;
      }
      assert flightList[..i] == flightList;
    }

    /** Joins each booking row with its flight and passengers, dropping the
        bookings whose flight does not resolve. */
    method EnrichBookings(bookingList: seq<Booking>) returns (result: seq<BookingWithDetails>)
      ensures result == EnrichedBookings(Snapshot(), bookingList)
    {
      var t := Snapshot();
      result := [];
      var i := 0;
      while i < |bookingList|
        invariant 0 <= i <= |bookingList|
        invariant result == FilterMap(bookingList[..i], (b: Booking) => BookingDetails(t, b))
      {
        var booking := bookingList[i];
        var flight := FlightById(t, booking.flightId);
        var passengerList := PassengersByBookingId(t, booking.id);
        assert FilterMap(bookingList[..i + 1], (b: Booking) => BookingDetails(t, b))
            == FilterMap(bookingList[..i], (b: Booking) => BookingDetails(t, b))
               + if flight.Some? then [BookingWithDetails(booking, flight.value, passengerList)] else []
        by {
          assert bookingList[..i + 1] == bookingList[..i] + [booking];
          FilterMapSnoc(bookingList[..i], booking, (b: Booking) => BookingDetails(t, b));
        }
        if flight.Some? {
          result := result + [BookingWithDetails(booking, flight.value, passengerList)];
        }
        i := i + 1;
      }
      assert bookingList[..i] == bookingList;
    }

    method GetBookingsByUserId(userId: Id) returns (result: seq<BookingWithDetails>)
      ensures result == EnrichedBookings(Snapshot(), Filter(bookings, (b: Booking) => b.userId == userId))
    {
      result := EnrichBookings(Filter(bookings, (b: Booking) => b.userId == userId));
    }

    method GetAllBookings() returns (result: seq<BookingWithDetails>)
      ensures result == EnrichedBookings(Snapshot(), bookings)
    {
      result := EnrichBookings(bookings);
    }
  }
}

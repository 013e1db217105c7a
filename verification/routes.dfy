/** The booking endpoints of the HTTP server: PNR generation, the
    `POST /api/bookings` handler (pricing, booking and passenger inserts,
    seat marking), the `PATCH /api/bookings/:id/cancel` handler and the
    guard of the flight search endpoint. Each handler is a method over the
    storage object, specified by a function from the old tables to the
    response and the new tables; the properties are lemmas about those
    functions. */
module Routes {
  import opened Common
  import opened Schema
  import opened Storage

  /** The single user identity the server knows now that login is removed. */
  const GUEST_USER_ID: Id := "DUMMY_LOCAL_USER"

  /** The PNR alphabet exactly as written: it has no '5' and repeats 1, 2 and 3. */
  const PNR_ALPHABET: string := "ABCDEFGHIJKLMNOPQRSTUVWXYZ012343216789"

  const PNR_LENGTH: nat := 6

  const TAX_RATE: real := 0.12

  // ---------------------------------------------------------------------
  // PNR generation
  // ---------------------------------------------------------------------

  /** Six draws of `Math.floor(Math.random() * chars.length)`. */
  predicate ValidDraws(draws: seq<nat>)
  {
    |draws| == PNR_LENGTH && forall i :: 0 <= i < |draws| ==> draws[i] < |PNR_ALPHABET|
  }

  /** The PNR that a given sequence of draws produces. */
  function PnrFromDraws(draws: seq<nat>): string
    requires ValidDraws(draws)
  {
    seq(PNR_LENGTH, i requires 0 <= i < PNR_LENGTH => PNR_ALPHABET[draws[i]])
  }

  /** `generatePNR`. */
  method GeneratePnr(draws: seq<nat>) returns (pnr: string)
    requires ValidDraws(draws)
    ensures |pnr| == PNR_LENGTH
    ensures forall i :: 0 <= i < PNR_LENGTH ==> pnr[i] == PNR_ALPHABET[draws[i]]
  {
    pnr := "";
    for i := 0 to PNR_LENGTH
      invariant |pnr| == i
      invariant forall k :: 0 <= k < i ==> pnr[k] == PNR_ALPHABET[draws[k]]
    {
      pnr := pnr + [PNR_ALPHABET[draws[i]]];
    }
  }

  /** Every PNR has six characters, each an upper-case letter or a digit
      taken from the alphabet, and never the digit '5'. */
  lemma PnrShape(draws: seq<nat>)
    requires ValidDraws(draws)
    ensures |PnrFromDraws(draws)| == PNR_LENGTH
    ensures forall i :: 0 <= i < PNR_LENGTH ==> PnrFromDraws(draws)[i] in PNR_ALPHABET
    ensures forall i :: 0 <= i < PNR_LENGTH ==>
      var c := PnrFromDraws(draws)[i]; c != '5' && ('A' <= c <= 'Z' || '0' <= c <= '9')
  {
    forall i | 0 <= i < PNR_LENGTH
      ensures var c := PnrFromDraws(draws)[i]; c != '5' && ('A' <= c <= 'Z' || '0' <= c <= '9')
    {
      AlphabetCharacter(draws[i]);
    }
  }

  lemma AlphabetCharacter(k: nat)
    requires k < |PNR_ALPHABET|
    ensures var c := PNR_ALPHABET[k]; c != '5' && ('A' <= c <= 'Z' || '0' <= c <= '9')
  {
  }

  // ---------------------------------------------------------------------
  // Pricing
  // ---------------------------------------------------------------------

  /** `seats.filter(s => seatIds.includes(s.id))`. */
  function SelectedSeats(flightSeats: seq<Seat>, seatIds: seq<Id>): seq<Seat>
  {
    Filter(flightSeats, (s: Seat) => s.id in seatIds)
  }

  /** The summed price of the flight's seats that the request names. */
  function SeatCharges(flightSeats: seq<Seat>, seatIds: seq<Id>): real
  {
    SumOf(SelectedSeats(flightSeats, seatIds), (s: Seat) => s.price)
  }

  /** The booking total: the economy fare for every passenger, whatever the
      cabin, plus seat charges, plus tax on the fare part only. */
  function BookingTotal(economyPrice: real, passengerCount: nat, seatCharges: real): real
  {
    var basePrice := economyPrice * passengerCount as real;
    basePrice + seatCharges + basePrice * TAX_RATE
  }

  /** Tax applies to the fare only: seat charges pass through untaxed, and
      the fare part is 112% of economy fare times passengers. */
  lemma SeatChargesAreNotTaxed(economyPrice: real, passengerCount: nat, seatCharges: real)
    ensures BookingTotal(economyPrice, passengerCount, seatCharges) - seatCharges
         == economyPrice * passengerCount as real * 1.12
    ensures BookingTotal(economyPrice, passengerCount, seatCharges) - BookingTotal(economyPrice, passengerCount, 0.0)
         == seatCharges
  {
  }

  /** A seat id that names none of the flight's seats (an unknown id, or a
      seat of another flight) adds nothing. */
  lemma {:induction false} UnmatchedSeatIdAddsNothing(flightSeats: seq<Seat>, seatIds: seq<Id>, extra: Id)
    requires forall i :: 0 <= i < |flightSeats| ==> flightSeats[i].id != extra
    ensures SeatCharges(flightSeats, seatIds + [extra]) == SeatCharges(flightSeats, seatIds)
  {
    FilterExtensional(flightSeats, (s: Seat) => s.id in seatIds + [extra], (s: Seat) => s.id in seatIds);
  }

  /** Only the set of requested ids matters: repeating an id does not
      charge its seat twice, and order is irrelevant. */
  lemma {:induction false} SeatChargesDependOnIdSetOnly(flightSeats: seq<Seat>, a: seq<Id>, b: seq<Id>)
    requires forall x :: x in a <==> x in b
    ensures SeatCharges(flightSeats, a) == SeatCharges(flightSeats, b)
  {
    FilterExtensional(flightSeats, (s: Seat) => s.id in a, (s: Seat) => s.id in b);
  }

  /** Seats of another flight named in the request are not charged. */
  lemma OtherFlightSeatIsNotCharged(t: Tables, flightId: Id, seatIds: seq<Id>, other: Seat)
    requires other in t.seats && other.flightId != flightId
    requires forall i, j :: 0 <= i < j < |t.seats| ==> t.seats[i].id != t.seats[j].id
    ensures SeatCharges(SeatsByFlightId(t, flightId), seatIds + [other.id])
         == SeatCharges(SeatsByFlightId(t, flightId), seatIds)
  {
    var flightSeats := SeatsByFlightId(t, flightId);
    SeatsByFlightIdSpec(t, flightId);
    forall i | 0 <= i < |flightSeats| ensures flightSeats[i].id != other.id {
      var j :| 0 <= j < |t.seats| && t.seats[j] == flightSeats[i];
      var k :| 0 <= k < |t.seats| && t.seats[k] == other;
      assert j != k;
    }
    UnmatchedSeatIdAddsNothing(flightSeats, seatIds, other.id);
  }

  /** With non-negative prices the total is at least the taxed fare. */
  lemma {:induction false} TotalCoversTaxedFare(economyPrice: real, passengerCount: nat, flightSeats: seq<Seat>, seatIds: seq<Id>)
    requires forall i :: 0 <= i < |flightSeats| ==> flightSeats[i].price >= 0.0
    ensures BookingTotal(economyPrice, passengerCount, SeatCharges(flightSeats, seatIds))
         >= economyPrice * passengerCount as real * 1.12
  {
    var selected := SelectedSeats(flightSeats, seatIds);
    FilterMembers(flightSeats, (s: Seat) => s.id in seatIds);
    forall x | x in selected ensures x.price >= 0.0 {
      var i :| 0 <= i < |selected| && selected[i] == x;
    }
    SumOfNonNegative(selected, (s: Seat) => s.price);
    SeatChargesAreNotTaxed(economyPrice, passengerCount, SeatCharges(flightSeats, seatIds));
  }

  /** A fare of 100.00 with two passengers on seats priced 10.00 and 15.00
      costs 249.00: 200 + 25 + 12% of 200. */
  lemma TwoPassengerExample()
    ensures var seats := [Seat("s1", "F1", "1A", 1, "A", "economy", true, 10.0),
                          Seat("s2", "F1", "1B", 1, "B", "economy", true, 15.0)];
      BookingTotal(100.0, 2, SeatCharges(seats, ["s1", "s2"])) == 249.0
  {
    var seats := [Seat("s1", "F1", "1A", 1, "A", "economy", true, 10.0),
                  Seat("s2", "F1", "1B", 1, "B", "economy", true, 15.0)];
    var ids: seq<Id> := ["s1", "s2"];
    var price := (s: Seat) => s.price;
    assert seats[..1] == [seats[0]] && [seats[0]][..0] == [];
    assert SelectedSeats(seats, ids) == seats by {
      assert Filter([seats[0]], (s: Seat) => s.id in ids) == [seats[0]];
    }
    assert SumOf([seats[0]], price) == 10.0;
    assert SumOf(seats, price) == 25.0;
  }

  // ---------------------------------------------------------------------
  // POST /api/bookings
  // ---------------------------------------------------------------------

  datatype PassengerInput = PassengerInput(
    title: string, firstName: string, lastName: string,
    dateOfBirth: int, passportNumber: Option<string>)

  /** The request body fields the handler reads. */
  datatype BookingRequest = BookingRequest(
    flightId: Id, passengers: seq<PassengerInput>, seatIds: seq<Id>, paymentMethod: string)

  datatype CreateResponse = FlightNotFound | Created(booking: Booking)
  {
    function StatusCode(): int
    {
      match this
      case FlightNotFound => 404
      case Created(_) => 200
    }
  }

  /** JavaScript `s || null` on an optional string: the empty string is falsy. */
  function Truthy(s: Option<string>): Option<string>
  {
    if s.Some? && s.value != "" then s else None
  }

  /** `seatIds[i] || null`. */
  function SeatIdAt(seatIds: seq<Id>, i: nat): Option<Id>
  {
    if i < |seatIds| then Truthy(Some(seatIds[i])) else None
  }

  /** The row inserted for passenger `i`. */
  function PassengerRow(req: BookingRequest, bookingId: Id, passengerIds: seq<Id>, i: nat): Passenger
    requires i < |req.passengers| && |passengerIds| == |req.passengers|
  {
    var p := req.passengers[i];
    Passenger(passengerIds[i], bookingId, p.title, p.firstName, p.lastName, p.dateOfBirth,
              Truthy(p.passportNumber), SeatIdAt(req.seatIds, i))
  }

  /** The rows inserted for the first `n` passengers, in order. */
  function PassengerRows(req: BookingRequest, bookingId: Id, passengerIds: seq<Id>, n: nat): (r: seq<Passenger>)
    requires n <= |req.passengers| && |passengerIds| == |req.passengers|
    ensures |r| == n
    ensures forall k :: 0 <= k < n ==> r[k] == PassengerRow(req, bookingId, passengerIds, k)
  {
    if n == 0 then []
    else PassengerRows(req, bookingId, passengerIds, n - 1) + [PassengerRow(req, bookingId, passengerIds, n - 1)]
  }

  /** The seat ids the handler marks taken, in order: `seatIds[i]` for each
      passenger `i` whose entry is present and non-empty. */
  function TakenSeatIds(seatIds: seq<Id>, passengerCount: nat): seq<Id>
  {
    if passengerCount == 0 then []
    else TakenSeatIds(seatIds, passengerCount - 1)
         + (match SeatIdAt(seatIds, passengerCount - 1) case Some(x) => [x] case None => [])
  }

  /** Response and new tables of `POST /api/bookings`. */
  function CreateOutcome(t: Tables, req: BookingRequest, pnr: string, bookingId: Id, passengerIds: seq<Id>, now: int)
    : (CreateResponse, Tables)
    requires |passengerIds| == |req.passengers|
  {
    match FlightById(t, req.flightId)
    case None => (FlightNotFound, t)
    case Some(flight) =>
      var total := BookingTotal(flight.flight.economyPrice, |req.passengers|,
                                SeatCharges(SeatsByFlightId(t, req.flightId), req.seatIds));
      var booking := Booking(bookingId, pnr, GUEST_USER_ID, req.flightId, "confirmed", total, "paid", req.paymentMethod, now);
      (Created(booking),
       t.(bookings := t.bookings + [booking],
          passengers := t.passengers + PassengerRows(req, bookingId, passengerIds, |req.passengers|),
          seats := SetEachSeat(t.seats, TakenSeatIds(req.seatIds, |req.passengers|), false)))
  }

  /** The handler. The six PNR draws, the generated keys and the clock are inputs. */
  method CreateBooking(db: DatabaseStorage, req: BookingRequest, draws: seq<nat>,
                       bookingId: Id, passengerIds: seq<Id>, now: int)
    returns (response: CreateResponse)
    requires ValidDraws(draws) && |passengerIds| == |req.passengers|
    modifies db
    ensures (response, db.Snapshot())
         == CreateOutcome(old(db.Snapshot()), req, PnrFromDraws(draws), bookingId, passengerIds, now)
  {
    var t := db.Snapshot();
    var flight := FlightById(t, req.flightId);
    if flight.None? {
      return FlightNotFound;
    }

    var seats := SeatsByFlightId(t, req.flightId);
    var totalAmount := BookingTotal(flight.value.flight.economyPrice, |req.passengers|, SeatCharges(seats, req.seatIds));

    var pnr := GeneratePnr(draws);
    assert pnr == PnrFromDraws(draws);

    var booking := db.CreateBooking(
      NewBooking(GUEST_USER_ID, req.flightId, "confirmed", totalAmount, "paid", req.paymentMethod),
      pnr, bookingId, now);

    AddPassengers(db, req, bookingId, passengerIds);
    response := Created(booking);
  }

  /** The passenger loop of the create handler: one row per passenger, and
      the passenger's seat, when given, marked taken. */
  method AddPassengers(db: DatabaseStorage, req: BookingRequest, bookingId: Id, passengerIds: seq<Id>)
    requires |passengerIds| == |req.passengers|
    modifies db
    ensures db.Snapshot() == old(db.Snapshot()).(
      passengers := old(db.passengers) + PassengerRows(req, bookingId, passengerIds, |req.passengers|),
      seats := SetEachSeat(old(db.seats), TakenSeatIds(req.seatIds, |req.passengers|), false))
  {
    ghost var t := db.Snapshot();
    var i := 0;
    while i < |req.passengers|
      invariant 0 <= i <= |req.passengers|
      invariant db.airports == t.airports && db.airlines == t.airlines && db.flights == t.flights
      invariant db.bookings == t.bookings
      invariant db.passengers == t.passengers + PassengerRows(req, bookingId, passengerIds, i)
      invariant db.seats == SetEachSeat(t.seats, TakenSeatIds(req.seatIds, i), false)
    {
      var p := req.passengers[i];
      var row := db.CreatePassenger(
        NewPassenger(bookingId, p.title, p.firstName, p.lastName, p.dateOfBirth,
                     Truthy(p.passportNumber), SeatIdAt(req.seatIds, i)),
        passengerIds[i]);
      if SeatIdAt(req.seatIds, i).Some? {
        assert TakenSeatIds(req.seatIds, i + 1) == TakenSeatIds(req.seatIds, i) + [req.seatIds[i]];
        SetEachSeatSnoc(t.seats, TakenSeatIds(req.seatIds, i), req.seatIds[i], false);
        db.UpdateSeatAvailability(req.seatIds[i], false);
      } else {
        assert TakenSeatIds(req.seatIds, i + 1) == TakenSeatIds(req.seatIds, i);
      }
      i := i + 1;
    }
  }

  /** Who can be marked: a seat id is marked exactly when it is the present,
      non-empty `seatIds[i]` of some passenger `i`; ids past the passenger
      count are never marked. */
  lemma {:induction false} TakenSeatIdsMembers(seatIds: seq<Id>, passengerCount: nat, x: Id)
    ensures x in TakenSeatIds(seatIds, passengerCount) <==>
      exists i :: 0 <= i < passengerCount && i < |seatIds| && seatIds[i] == x && x != ""
  {
    if passengerCount > 0 {
      TakenSeatIdsMembers(seatIds, passengerCount - 1, x);
    }
  }

  /** An unknown flight gives 404 and changes no table. */
  lemma CreateUnknownFlight(t: Tables, req: BookingRequest, pnr: string, bookingId: Id, passengerIds: seq<Id>, now: int)
    requires |passengerIds| == |req.passengers|
    ensures var (response, t') := CreateOutcome(t, req, pnr, bookingId, passengerIds, now);
      && (response == FlightNotFound <==> FlightById(t, req.flightId).None?)
      && (response == FlightNotFound ==> t' == t && response.StatusCode() == 404)
      && ((forall i :: 0 <= i < |t.flights| ==> t.flights[i].id != req.flightId) ==> response == FlightNotFound)
  {
    FlightByIdSpec(t, req.flightId);
  }

  /** The created booking: confirmed, paid, owned by the guest user, carrying
      the generated PNR and the computed total, appended as the one new row. */
  lemma CreatedBookingRow(t: Tables, req: BookingRequest, pnr: string, bookingId: Id, passengerIds: seq<Id>, now: int)
    requires |passengerIds| == |req.passengers|
    requires FlightById(t, req.flightId).Some?
    ensures var (response, t') := CreateOutcome(t, req, pnr, bookingId, passengerIds, now);
      && response.Created? && response.StatusCode() == 200
      && var b := response.booking;
      && b.id == bookingId && b.pnr == pnr && b.flightId == req.flightId
      && b.status == "confirmed" && b.paymentStatus == "paid" && b.userId == GUEST_USER_ID
      && b.paymentMethod == req.paymentMethod
      && b.totalAmount == FlightById(t, req.flightId).value.flight.economyPrice * |req.passengers| as real * 1.12
                          + SeatCharges(SeatsByFlightId(t, req.flightId), req.seatIds)
      && t'.bookings == t.bookings + [b]
      && t'.flights == t.flights && t'.airlines == t.airlines && t'.airports == t.airports
  {
    var economyPrice := FlightById(t, req.flightId).value.flight.economyPrice;
    var charges := SeatCharges(SeatsByFlightId(t, req.flightId), req.seatIds);
    var total := BookingTotal(economyPrice, |req.passengers|, charges);
    var b := Booking(bookingId, pnr, GUEST_USER_ID, req.flightId, "confirmed", total, "paid", req.paymentMethod, now);
    var (response, t') := CreateOutcome(t, req, pnr, bookingId, passengerIds, now);
    assert response == Created(b) && t'.bookings == t.bookings + [b];
    SeatChargesAreNotTaxed(economyPrice, |req.passengers|, charges);
  }

  /** Exactly one passenger row per traveller is appended; passenger `i`
      gets `seatIds[i]` when that is present and non-empty, and no seat
      otherwise. */
  lemma CreatedPassengerRows(t: Tables, req: BookingRequest, pnr: string, bookingId: Id, passengerIds: seq<Id>, now: int)
    requires |passengerIds| == |req.passengers|
    requires FlightById(t, req.flightId).Some?
    ensures var t' := CreateOutcome(t, req, pnr, bookingId, passengerIds, now).1;
      && |t'.passengers| == |t.passengers| + |req.passengers|
      && t'.passengers[..|t.passengers|] == t.passengers
      && forall i :: 0 <= i < |req.passengers| ==>
           var row := t'.passengers[|t.passengers| + i];
           && row.id == passengerIds[i] && row.bookingId == bookingId
           && row.firstName == req.passengers[i].firstName && row.lastName == req.passengers[i].lastName
           && (i < |req.seatIds| && req.seatIds[i] != "" ==> row.seatId == Some(req.seatIds[i]))
           && (i >= |req.seatIds| || req.seatIds[i] == "" ==> row.seatId == None)
           && row.title == req.passengers[i].title && row.dateOfBirth == req.passengers[i].dateOfBirth
           && (req.passengers[i].passportNumber.Some? && req.passengers[i].passportNumber.value != ""
               ==> row.passportNumber == req.passengers[i].passportNumber)
           && (req.passengers[i].passportNumber.None? || req.passengers[i].passportNumber.value == ""
               ==> row.passportNumber == None)
  {
    var t' := CreateOutcome(t, req, pnr, bookingId, passengerIds, now).1;
    assert t'.passengers[..|t.passengers|] == t.passengers;
  }

  /** Each passenger's seat is set unavailable whatever its prior state;
      every other seat row is unchanged. */
  lemma CreatedSeatsMarked(t: Tables, req: BookingRequest, pnr: string, bookingId: Id, passengerIds: seq<Id>, now: int)
    requires |passengerIds| == |req.passengers|
    requires FlightById(t, req.flightId).Some?
    ensures var t' := CreateOutcome(t, req, pnr, bookingId, passengerIds, now).1;
      && |t'.seats| == |t.seats|
      && forall k :: 0 <= k < |t.seats| ==>
           t'.seats[k] == if exists i :: 0 <= i < |req.passengers| && i < |req.seatIds| && req.seatIds[i] == t.seats[k].id && t.seats[k].id != ""
                          then t.seats[k].(isAvailable := false) else t.seats[k]
  {
    var taken := TakenSeatIds(req.seatIds, |req.passengers|);
    SetEachSeatEffect(t.seats, taken, false);
    forall k | 0 <= k < |t.seats| {
      TakenSeatIdsMembers(req.seatIds, |req.passengers|, t.seats[k].id);
    }
  }

  /** With fresh keys, creating a booking keeps every id column unique. */
  lemma CreatePreservesKeys(t: Tables, req: BookingRequest, pnr: string, bookingId: Id, passengerIds: seq<Id>, now: int)
    requires |passengerIds| == |req.passengers|
    requires KeysUnique(t)
    requires forall i :: 0 <= i < |t.bookings| ==> t.bookings[i].id != bookingId
    requires forall i, j :: 0 <= i < |t.passengers| && 0 <= j < |passengerIds| ==> t.passengers[i].id != passengerIds[j]
    requires forall i, j :: 0 <= i < j < |passengerIds| ==> passengerIds[i] != passengerIds[j]
    ensures KeysUnique(CreateOutcome(t, req, pnr, bookingId, passengerIds, now).1)
  {
    if FlightById(t, req.flightId).Some? {
      var (response, t') := CreateOutcome(t, req, pnr, bookingId, passengerIds, now);
      var rows := PassengerRows(req, bookingId, passengerIds, |req.passengers|);
      var taken := TakenSeatIds(req.seatIds, |req.passengers|);
      assert t'.passengers == t.passengers + rows && t'.bookings == t.bookings + [response.booking]
          && t'.seats == SetEachSeat(t.seats, taken, false);
      assert forall i, j :: 0 <= i < j < |t'.seats| ==> t'.seats[i].id != t'.seats[j].id by {
        SetEachSeatEffect(t.seats, taken, false);
      }
      assert forall i, j :: 0 <= i < j < |t'.bookings| ==> t'.bookings[i].id != t'.bookings[j].id;
      assert forall i, j :: 0 <= i < j < |t'.passengers| ==> t'.passengers[i].id != t'.passengers[j].id by {
        PassengerIdsStayUnique(t.passengers, rows, passengerIds);
      }
    }
  }

  lemma PassengerIdsStayUnique(existing: seq<Passenger>, rows: seq<Passenger>, ids: seq<Id>)
    requires |rows| == |ids| && forall i :: 0 <= i < |rows| ==> rows[i].id == ids[i]
    requires forall i, j :: 0 <= i < j < |existing| ==> existing[i].id != existing[j].id
    requires forall i, j :: 0 <= i < |existing| && 0 <= j < |ids| ==> existing[i].id != ids[j]
    requires forall i, j :: 0 <= i < j < |ids| ==> ids[i] != ids[j]
    ensures forall i, j :: 0 <= i < j < |existing + rows| ==> (existing + rows)[i].id != (existing + rows)[j].id
  {
    var all := existing + rows;
    forall i, j | 0 <= i < j < |all| ensures all[i].id != all[j].id {
      if j >= |existing| {
        assert all[j].id == ids[j - |existing|];
        if i >= |existing| {
          assert all[i].id == ids[i - |existing|];
        }
      }
    }
  }

  // ---------------------------------------------------------------------
  // PATCH /api/bookings/:id/cancel
  // ---------------------------------------------------------------------

  datatype CancelResponse = BookingNotFound | NotOwner | Cancelled
  {
    function StatusCode(): int
    {
      match this
      case BookingNotFound => 404
      case NotOwner => 403
      case Cancelled => 200
    }
  }

  /** The seats released on cancel: each passenger's seat, when set and non-empty. */
  function ReleasedSeatIds(passengers: seq<Passenger>): seq<Id>
  {
    FilterMap(passengers, (p: Passenger) => Truthy(p.seatId))
  }

  /** Response and new tables of `PATCH /api/bookings/:id/cancel`. */
  function CancelOutcome(t: Tables, id: Id, now: int): (CancelResponse, Tables)
  {
    match BookingById(t, id)
    case None => (BookingNotFound, t)
    case Some(found) =>
      if found.booking.userId != GUEST_USER_ID then (NotOwner, t)
      else (Cancelled, t.(bookings := SetBookingStatus(t.bookings, id, "cancelled", now),
                          seats := SetEachSeat(t.seats, ReleasedSeatIds(found.passengers), true)))
  }

  /** The handler. It does not look at the booking's current status. */
  method CancelBooking(db: DatabaseStorage, id: Id, now: int) returns (response: CancelResponse)
    modifies db
    ensures (response, db.Snapshot()) == CancelOutcome(old(db.Snapshot()), id, now)
  {
    var t := db.Snapshot();
    var found := BookingById(t, id);
    if found.None? {
      return BookingNotFound;
    }
    if found.value.booking.userId != GUEST_USER_ID {
      return NotOwner;
    }
    db.UpdateBookingStatus(id, "cancelled", now);

    ReleaseSeats(db, found.value.passengers);
    response := Cancelled;
  }

  /** The release loop of the cancel handler: each passenger's seat, when
      set and non-empty, is made available in turn. */
  method ReleaseSeats(db: DatabaseStorage, passengers: seq<Passenger>)
    modifies db
    ensures db.Snapshot() == old(db.Snapshot()).(seats := SetEachSeat(old(db.seats), ReleasedSeatIds(passengers), true))
  {
    ghost var t := db.Snapshot();
    var i := 0;
    while i < |passengers|
      invariant 0 <= i <= |passengers|
      invariant db.Snapshot() == t.(seats := SetEachSeat(t.seats, ReleasedSeatIds(passengers[..i]), true))
    {
      assert passengers[..i + 1] == passengers[..i] + [passengers[i]];
      ghost var released := ReleasedSeatIds(passengers[..i]);
      if passengers[i].seatId.Some? && passengers[i].seatId.value != "" {
        assert ReleasedSeatIds(passengers[..i + 1]) == released + [passengers[i].seatId.value];
        SetEachSeatSnoc(t.seats, released, passengers[i].seatId.value, true);
        db.UpdateSeatAvailability(passengers[i].seatId.value, true);
      } else {
        assert ReleasedSeatIds(passengers[..i + 1]) == released;
      }
      i := i + 1;
    }
    assert passengers[..i] == passengers;
  }

  /** A missing booking (or one whose flight no longer resolves) gives 404,
      another owner gives 403, and neither changes any table. */
  lemma CancelRefusalsChangeNothing(t: Tables, id: Id, now: int)
    ensures var (response, t') := CancelOutcome(t, id, now);
      && (response == BookingNotFound <==> BookingById(t, id).None?)
      && (response == NotOwner <==> BookingById(t, id).Some? && BookingById(t, id).value.booking.userId != GUEST_USER_ID)
      && (response != Cancelled ==> t' == t)
  {
  }

  /** A successful cancel sets the booking's status to "cancelled", makes
      every seat held by one of its passengers available, and changes no
      other row. */
  lemma CancelEffect(t: Tables, id: Id, now: int)
    requires CancelOutcome(t, id, now).0 == Cancelled
    ensures var t' := CancelOutcome(t, id, now).1;
      var held := ReleasedSeatIds(PassengersByBookingId(t, id));
      && t'.airports == t.airports && t'.airlines == t.airlines
      && t'.flights == t.flights && t'.passengers == t.passengers
      && |t'.bookings| == |t.bookings| && |t'.seats| == |t.seats|
      && (forall k :: 0 <= k < |t.bookings| ==>
            t'.bookings[k] == if t.bookings[k].id == id then t.bookings[k].(status := "cancelled", updatedAt := now) else t.bookings[k])
      && (forall k :: 0 <= k < |t.seats| ==>
            t'.seats[k] == if t.seats[k].id in held then t.seats[k].(isAvailable := true) else t.seats[k])
  {
    var found := BookingById(t, id).value;
    BookingByIdSpec(t, id);
    assert found.passengers == PassengersByBookingId(t, id);
    SetEachSeatEffect(t.seats, ReleasedSeatIds(found.passengers), true);
  }

  /** Cancelling an already cancelled booking succeeds again. It stamps the
      new instant on the booking; the seats it releases were released by
      the first cancel, so the seat table stays as it is. At the same
      instant nothing changes at all. */
  lemma CancelIsIdempotent(t: Tables, id: Id, now: int, later: int)
    requires CancelOutcome(t, id, now).0 == Cancelled
    ensures var t' := CancelOutcome(t, id, now).1;
      CancelOutcome(t', id, later) == (Cancelled, t'.(bookings := SetBookingStatus(t'.bookings, id, "cancelled", later)))
    ensures var t' := CancelOutcome(t, id, now).1;
      CancelOutcome(t', id, now) == (Cancelled, t')
  {
    var found := BookingById(t, id).value;
    var t' := CancelOutcome(t, id, now).1;
    var released := ReleasedSeatIds(found.passengers);
    assert t' == t.(bookings := SetBookingStatus(t.bookings, id, "cancelled", now),
                    seats := SetEachSeat(t.seats, released, true));
    CancelledBookingStillFound(t, t', id, now);
    SetEachSeatTwice(t.seats, released, true);
    SetBookingStatusTwice(t.bookings, id, "cancelled", now);
  }

  /** The handler does not look at the booking's status, so a seat of the
      booking's passengers that was taken again after the first cancel is
      made available again by a second cancel. */
  lemma CancelAgainReleasesRetakenSeat(t: Tables, id: Id, now: int, later: int, seatId: Id)
    requires CancelOutcome(t, id, now).0 == Cancelled
    requires BookingById(t, id).Some? && seatId in ReleasedSeatIds(BookingById(t, id).value.passengers)
    ensures var t' := CancelOutcome(t, id, now).1;
      var retaken := t'.(seats := SetSeatAvailability(t'.seats, seatId, false));
      && (forall k :: 0 <= k < |retaken.seats| && retaken.seats[k].id == seatId ==> !retaken.seats[k].isAvailable)
      && CancelOutcome(retaken, id, later).0 == Cancelled
      && var t'' := CancelOutcome(retaken, id, later).1;
         |t''.seats| == |t.seats|
         && forall k :: 0 <= k < |t''.seats| && t''.seats[k].id == seatId ==> t''.seats[k].isAvailable
  {
    var found := BookingById(t, id).value;
    var t' := CancelOutcome(t, id, now).1;
    var released := ReleasedSeatIds(found.passengers);
    assert t' == t.(bookings := SetBookingStatus(t.bookings, id, "cancelled", now),
                    seats := SetEachSeat(t.seats, released, true));
    CancelledBookingStillFound(t, t', id, now);
    var retaken := t'.(seats := SetSeatAvailability(t'.seats, seatId, false));
    BookingByIdIgnoresSeats(t', retaken.seats, id);
    assert BookingById(retaken, id) == BookingById(t', id);
    SetEachSeatEffect(t.seats, released, true);
    SetEachSeatEffect(retaken.seats, released, true);
  }

  /** Looking a booking up reads no seat row. */
  lemma BookingByIdIgnoresSeats(t: Tables, seats: seq<Seat>, id: Id)
    ensures BookingById(t.(seats := seats), id) == BookingById(t, id)
  {
    var u := t.(seats := seats);
    assert BookingRow(u, id) == BookingRow(t, id);
    match BookingRow(t, id)
    case None =>
    case Some(b) =>
      assert FlightById(u, b.flightId) == FlightById(t, b.flightId) by {
        assert FlightRow(u, b.flightId) == FlightRow(t, b.flightId);
        match FlightRow(t, b.flightId)
        case None =>
        case Some(f) =>
          assert AirlineById(u, f.airlineId) == AirlineById(t, f.airlineId);
          assert AirportById(u, f.originAirportId) == AirportById(t, f.originAirportId);
          assert AirportById(u, f.destinationAirportId) == AirportById(t, f.destinationAirportId);
      }
      assert PassengersByBookingId(u, b.id) == PassengersByBookingId(t, b.id);
  }

  /** After a cancel the booking is still found, with the same flight and
      passengers, now in status "cancelled". */
  lemma CancelledBookingStillFound(t: Tables, t': Tables, id: Id, now: int)
    requires BookingById(t, id).Some?
    requires t'.airports == t.airports && t'.airlines == t.airlines && t'.flights == t.flights
    requires t'.passengers == t.passengers
    requires t'.bookings == SetBookingStatus(t.bookings, id, "cancelled", now)
    ensures BookingById(t', id).Some?
    ensures BookingById(t', id).value.booking == BookingById(t, id).value.booking.(status := "cancelled", updatedAt := now)
    ensures BookingById(t', id).value.passengers == BookingById(t, id).value.passengers
  {
    var b := BookingRow(t, id).value;
    var setStatus := (x: Booking) => if x.id == id then x.(status := "cancelled", updatedAt := now) else x;
    var isId := (x: Booking) => x.id == id;
    FirstWhereOfMap(t.bookings, setStatus, isId, isId);
    FirstWhereSpec(t.bookings, isId);
    assert BookingRow(t', id) == Some(b.(status := "cancelled", updatedAt := now));
    assert FlightById(t', b.flightId) == FlightById(t, b.flightId) by {
      assert FlightRow(t', b.flightId) == FlightRow(t, b.flightId);
      match FlightRow(t, b.flightId)
      case None =>
      case Some(f) =>
        assert AirlineById(t', f.airlineId) == AirlineById(t, f.airlineId);
        assert AirportById(t', f.originAirportId) == AirportById(t, f.originAirportId);
        assert AirportById(t', f.destinationAirportId) == AirportById(t, f.destinationAirportId);
    }
    assert PassengersByBookingId(t', id) == PassengersByBookingId(t, id);
  }

  // ---------------------------------------------------------------------
  // GET /api/flights/:id
  // ---------------------------------------------------------------------

  datatype FlightResponse = NoSuchFlight | FlightBody(details: FlightWithDetails)
  {
    function StatusCode(): int
    {
      match this
      case NoSuchFlight => 404
      case FlightBody(_) => 200
    }
  }

  /** 404 exactly when the flight, its airline or one of its airports is missing;
      otherwise the body is the join of the first row with that id. */
  method GetFlightRoute(db: DatabaseStorage, id: Id) returns (response: FlightResponse)
    ensures response.NoSuchFlight? <==> FlightById(db.Snapshot(), id).None?
    ensures response.FlightBody? ==>
      && response.details.flight in db.flights && response.details.flight.id == id
      && FlightDetails(db.Snapshot(), response.details.flight) == Some(response.details)
    ensures response.FlightBody? ==> response.details == FlightById(db.Snapshot(), id).value
  {
    var flight := FlightById(db.Snapshot(), id);
    FlightByIdSpec(db.Snapshot(), id);
    if flight.None? {
      return NoSuchFlight;
    }
    response := FlightBody(flight.value);
  }

  // ---------------------------------------------------------------------
  // GET /api/flights/search
  // ---------------------------------------------------------------------

  datatype SearchResponse = MissingParameters | SearchHits(flights: seq<FlightWithDetails>)
  {
    function StatusCode(): int
    {
      match this
      case MissingParameters => 400
      case SearchHits(_) => 200
    }
  }

  /** The search endpoint: 400 when a query parameter is missing or empty;
      otherwise the storage search over the day window of `date`. */
  method SearchRoute(db: DatabaseStorage, origin: string, destination: string, date: string, dayStart: int, dayEnd: int)
    returns (response: SearchResponse)
    ensures response.MissingParameters? <==> origin == "" || destination == "" || date == ""
    ensures response.SearchHits? ==> response.flights == SearchResults(db.Snapshot(), origin, destination, dayStart, dayEnd)
  {
    if origin == "" || destination == "" || date == "" {
      return MissingParameters;
    }
    var flights := db.SearchFlights(origin, destination, dayStart, dayEnd);
    response := SearchHits(flights);
  }
}

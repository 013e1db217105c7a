/** The record shapes that the server's storage layer reads and writes and
    that the client components receive. Money is an exact `real` (the
    database's decimal text after parsing), instants are integer timestamps. */
module Schema {
  import opened Common

  type Id = string

  datatype Airport = Airport(id: Id, code: string, name: string, city: string, country: string)

  datatype Airline = Airline(id: Id, name: string, code: string)

  datatype Flight = Flight(
    id: Id,
    flightNumber: string,
    airlineId: Id,
    originAirportId: Id,
    destinationAirportId: Id,
    departureTime: int,
    arrivalTime: int,
    economyPrice: real,
    businessPrice: real,
    firstClassPrice: real,
    aircraftType: string,
    status: string)

  datatype Seat = Seat(
    id: Id,
    flightId: Id,
    seatNumber: string,
    row: int,
    column: string,
    seatClass: string,
    isAvailable: bool,
    price: real)

  datatype Booking = Booking(
    id: Id,
    pnr: string,
    userId: Id,
    flightId: Id,
    status: string,
    totalAmount: real,
    paymentStatus: string,
    paymentMethod: string,
    updatedAt: int)

  datatype Passenger = Passenger(
    id: Id,
    bookingId: Id,
    title: string,
    firstName: string,
    lastName: string,
    dateOfBirth: int,
    passportNumber: Option<string>,
    seatId: Option<Id>)

  /** A flight joined with its airline and both airports. */
  datatype FlightWithDetails = FlightWithDetails(
    flight: Flight,
    airline: Airline,
    originAirport: Airport,
    destinationAirport: Airport)

  /** A booking joined with its flight and its passenger rows. */
  datatype BookingWithDetails = BookingWithDetails(
    booking: Booking,
    flight: FlightWithDetails,
    passengers: seq<Passenger>)

  /** The contents of the tables the booking service touches, in table order. */
  datatype Tables = Tables(
    airports: seq<Airport>,
    airlines: seq<Airline>,
    flights: seq<Flight>,
    seats: seq<Seat>,
    bookings: seq<Booking>,
    passengers: seq<Passenger>)
}

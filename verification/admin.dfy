/** The data logic of the admin page: the flight search box, the
    statistics cards and the recent-bookings table. */
module Admin {
  import opened Common
  import opened Schema

  /** `toLowerCase` on one character, ASCII letters only. */
  function LowerChar(c: char): char
  {
    if 'A' <= c <= 'Z' then (c as int + 32) as char else c
  }

  /** `toUpperCase` on one character, ASCII letters only. */
  function UpperChar(c: char): char
  {
    if 'a' <= c <= 'z' then (c as int - 32) as char else c
  }

  function Lower(s: string): string { MapSeq(s, LowerChar) }

  function Upper(s: string): string { MapSeq(s, UpperChar) }

  predicate IsPrefix(t: string, s: string) { |t| <= |s| && s[..|t|] == t }

  /** `s.includes(t)`: `t` occurs in `s` at some position. */
  predicate Includes(s: string, t: string)
    decreases |s|
  {
    IsPrefix(t, s) || (s != [] && Includes(s[1..], t))
  }

  /** `t` occurs in `s` starting at position `i`. */
  predicate OccursAt(s: string, t: string, i: int)
  {
    0 <= i <= |s| - |t| && s[i..i + |t|] == t
  }

  /** `Includes` against the position-based definition of an occurrence. */
  lemma {:induction false} IncludesAtPosition(s: string, t: string)
    ensures Includes(s, t) <==> exists i :: OccursAt(s, t, i)
    decreases |s|
  {
    if s != [] {
      IncludesAtPosition(s[1..], t);
      if IsPrefix(t, s) {
        assert OccursAt(s, t, 0);
      } else if Includes(s[1..], t) {
        var i :| OccursAt(s[1..], t, i);
        assert s[i + 1..i + 1 + |t|] == s[1..][i..i + |t|];
        assert OccursAt(s, t, i + 1);
      }
      if exists i :: OccursAt(s, t, i) {
        var i :| OccursAt(s, t, i);
        if i > 0 {
          assert s[1..][i - 1..i - 1 + |t|] == s[i..i + |t|];
          assert OccursAt(s[1..], t, i - 1);
        } else {
          assert IsPrefix(t, s);
        }
      }
    } else {
      if Includes(s, t) {
        assert OccursAt(s, t, 0);
      }
      if exists i :: OccursAt(s, t, i) {
        var i :| OccursAt(s, t, i);
        assert |t| == 0 && IsPrefix(t, s);
      }
    }
  }

  /** The search box's predicate: the lower-cased term occurs in the
      lower-cased flight number, origin code or destination code. */
  predicate MatchesTerm(f: FlightWithDetails, term: string)
  {
    || Includes(Lower(f.flight.flightNumber), Lower(term))
    || Includes(Lower(f.originAirport.code), Lower(term))
    || Includes(Lower(f.destinationAirport.code), Lower(term))
  }

  /** `filteredFlights`: nothing while the list is not loaded. */
  function FilteredFlights(flights: Option<seq<FlightWithDetails>>, term: string): Option<seq<FlightWithDetails>>
  {
    match flights
    case None => None
    case Some(fs) => Some(Filter(fs, (f: FlightWithDetails) => MatchesTerm(f, term)))
  }

  /** The filter keeps the flights' order and keeps exactly the matching ones. */
  lemma FilterKeepsMatchingInOrder(flights: seq<FlightWithDetails>, term: string)
    ensures var r := FilteredFlights(Some(flights), term).value;
      && SubsequenceOf(r, flights)
      && (forall i :: 0 <= i < |r| ==> MatchesTerm(r[i], term))
      && (forall i :: 0 <= i < |flights| && MatchesTerm(flights[i], term) ==> flights[i] in r)
  {
    FilterIsSubsequence(flights, (f: FlightWithDetails) => MatchesTerm(f, term));
    FilterMembers(flights, (f: FlightWithDetails) => MatchesTerm(f, term));
  }

  /** An empty search box shows every flight. */
  lemma EmptyTermKeepsAll(flights: Option<seq<FlightWithDetails>>)
    ensures FilteredFlights(flights, "") == flights
  {
    if flights.Some? {
      forall f | f in flights.value ensures MatchesTerm(f, "") {
        assert IsPrefix(Lower(""), Lower(f.flight.flightNumber));
      }
      FilterKeepsAll(flights.value, (f: FlightWithDetails) => MatchesTerm(f, ""));
    }
  }

  lemma LowerOfUpper(s: string)
    ensures Lower(Upper(s)) == Lower(s)
  {
  }

  /** Matching ignores case: the term typed in capitals selects the same
      flights as the term itself. */
  lemma SearchIgnoresCase(flights: Option<seq<FlightWithDetails>>, term: string)
    ensures FilteredFlights(flights, Upper(term)) == FilteredFlights(flights, term)
  {
    LowerOfUpper(term);
    if flights.Some? {
      FilterExtensional(flights.value, (f: FlightWithDetails) => MatchesTerm(f, Upper(term)),
                        (f: FlightWithDetails) => MatchesTerm(f, term));
    }
  }

  /** "Total Flights" and "Total Bookings": `list?.length || 0`. */
  function TotalCount<T>(xs: Option<seq<T>>): nat
  {
    |OrEmpty(xs)|
  }

  /** "Revenue": every booking's total summed, cancelled ones included. */
  function Revenue(bookings: Option<seq<BookingWithDetails>>): real
  {
    SumOf(OrEmpty(bookings), (b: BookingWithDetails) => b.booking.totalAmount)
  }

  /** Revenue is 0 before the list loads and for no bookings; it adds up
      over any split of the list; and it is never negative when no booking
      total is. */
  lemma RevenueRules(a: seq<BookingWithDetails>, b: seq<BookingWithDetails>)
    ensures Revenue(None) == 0.0 && Revenue(Some([])) == 0.0
    ensures Revenue(Some(a + b)) == Revenue(Some(a)) + Revenue(Some(b))
    ensures (forall i :: 0 <= i < |a| ==> a[i].booking.totalAmount >= 0.0) ==> Revenue(Some(a)) >= 0.0
  {
    var amount := (x: BookingWithDetails) => x.booking.totalAmount;
    SumOfAppend(a, b, amount);
    if forall i :: 0 <= i < |a| ==> a[i].booking.totalAmount >= 0.0 {
      forall x | x in a ensures amount(x) >= 0.0 {
        var i :| 0 <= i < |a| && a[i] == x;
      }
      SumOfNonNegative(a, amount);
    }
  }

  /** The bookings table: `bookings?.slice(0, 10)`. */
  function RecentBookings(bookings: Option<seq<BookingWithDetails>>): (r: seq<BookingWithDetails>)
  {
    var all := OrEmpty(bookings);
    all[..Min(10, |all|)]
  }

  /** The table shows the first bookings in list order, never more than
      ten, and all of them when there are at most ten; the counts are 0
      while a list is not loaded. */
  lemma RecentBookingsAreTheFirstTen(bookings: Option<seq<BookingWithDetails>>)
    ensures var r := RecentBookings(bookings);
      && |r| <= 10 && |r| <= TotalCount(bookings)
      && r == OrEmpty(bookings)[..|r|]
      && (TotalCount(bookings) <= 10 ==> r == OrEmpty(bookings))
      && (TotalCount(bookings) >= 10 ==> |r| == 10)
    ensures bookings.None? ==> TotalCount(bookings) == 0 && RecentBookings(bookings) == []
  {
  }
}

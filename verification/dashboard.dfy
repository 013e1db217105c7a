/** The data logic of the traveller dashboard: the split of the bookings
    into upcoming and past trips, the three statistics, and the name the
    greeting uses. */
module Dashboard {
  import opened Common
  import opened Schema

  /** A booking as the dashboard receives it; its flight may be missing. */
  datatype Trip = Trip(booking: Booking, flight: Option<FlightWithDetails>)

  predicate IsUpcoming(trip: Trip, now: int)
  {
    trip.flight.Some? && trip.flight.value.flight.departureTime > now && trip.booking.status == "confirmed"
  }

  predicate IsPast(trip: Trip, now: int)
  {
    trip.flight.Some? && (trip.flight.value.flight.departureTime <= now || trip.booking.status == "cancelled")
  }

  /** `upcomingBookings`; a list not yet loaded reads as empty. */
  function Upcoming(trips: Option<seq<Trip>>, now: int): seq<Trip>
  {
    Filter(OrEmpty(trips), (t: Trip) => IsUpcoming(t, now))
  }

  /** `pastBookings`. */
  function Past(trips: Option<seq<Trip>>, now: int): seq<Trip>
  {
    Filter(OrEmpty(trips), (t: Trip) => IsPast(t, now))
  }

  /** Both lists keep the bookings' order, and no trip is in both. */
  lemma UpcomingAndPastSplit(trips: Option<seq<Trip>>, now: int)
    ensures SubsequenceOf(Upcoming(trips, now), OrEmpty(trips))
    ensures SubsequenceOf(Past(trips, now), OrEmpty(trips))
    ensures forall i, j :: 0 <= i < |Upcoming(trips, now)| && 0 <= j < |Past(trips, now)| ==>
      Upcoming(trips, now)[i] != Past(trips, now)[j]
  {
    var all := OrEmpty(trips);
    FilterIsSubsequence(all, (t: Trip) => IsUpcoming(t, now));
    FilterIsSubsequence(all, (t: Trip) => IsPast(t, now));
    FilterMembers(all, (t: Trip) => IsUpcoming(t, now));
    FilterMembers(all, (t: Trip) => IsPast(t, now));
  }

  /** Where each loaded trip lands: nowhere without a flight; in past when
      cancelled or departed; in upcoming when confirmed and still ahead;
      and a pending or otherwise unconfirmed trip still ahead is in
      neither list. */
  lemma WhereEachTripLands(trips: Option<seq<Trip>>, now: int)
    ensures forall i :: 0 <= i < |OrEmpty(trips)| ==>
      var trip := OrEmpty(trips)[i];
      && (trip.flight.None? ==> trip !in Upcoming(trips, now) && trip !in Past(trips, now))
      && (trip.flight.Some? && trip.booking.status == "cancelled" ==> trip in Past(trips, now))
      && (trip.flight.Some? && trip.flight.value.flight.departureTime <= now ==> trip in Past(trips, now))
      && (IsUpcoming(trip, now) ==> trip in Upcoming(trips, now))
      && (trip.flight.Some? && trip.flight.value.flight.departureTime > now
          && trip.booking.status != "confirmed" && trip.booking.status != "cancelled"
          ==> trip !in Upcoming(trips, now) && trip !in Past(trips, now))
  {
    var all := OrEmpty(trips);
    FilterMembers(all, (t: Trip) => IsUpcoming(t, now));
    FilterMembers(all, (t: Trip) => IsPast(t, now));
    forall i | 0 <= i < |all|
      ensures var trip := all[i];
        !IsUpcoming(trip, now) ==> trip !in Upcoming(trips, now)
      ensures var trip := all[i];
        !IsPast(trip, now) ==> trip !in Past(trips, now)
    {
      var trip := all[i];
      if trip in Upcoming(trips, now) {
        var k :| 0 <= k < |Upcoming(trips, now)| && Upcoming(trips, now)[k] == trip;
      }
      if trip in Past(trips, now) {
        var k :| 0 <= k < |Past(trips, now)| && Past(trips, now)[k] == trip;
      }
    }
  }

  /** "Total Trips": `bookings?.length || 0`. */
  function TotalTrips(trips: Option<seq<Trip>>): nat
  {
    |OrEmpty(trips)|
  }

  /** The destination countries of the trips, missing and empty ones dropped. */
  function Countries(trips: seq<Trip>): set<string>
  {
    if trips == [] then {}
    else
      var last := trips[|trips| - 1];
      Countries(trips[..|trips| - 1])
      + (if last.flight.Some? && last.flight.value.destinationAirport.country != ""
         then {last.flight.value.destinationAirport.country} else {})
  }

  /** "Countries" counts each non-empty destination country once, and is
      never more than the number of trips. */
  lemma {:induction false} CountriesAreDistinctDestinations(trips: seq<Trip>)
    ensures forall c :: c in Countries(trips) <==>
      c != "" && exists i :: 0 <= i < |trips| && trips[i].flight.Some? && trips[i].flight.value.destinationAirport.country == c
    ensures |Countries(trips)| <= |trips|
  {
    if trips != [] {
      var init := trips[..|trips| - 1];
      CountriesAreDistinctDestinations(init);
      forall c
        ensures c in Countries(trips) <==>
          c != "" && exists i :: 0 <= i < |trips| && trips[i].flight.Some? && trips[i].flight.value.destinationAirport.country == c
      {
        if c in Countries(init) {
          var i :| 0 <= i < |init| && init[i].flight.Some? && init[i].flight.value.destinationAirport.country == c;
          assert trips[i] == init[i];
        }
        if c != "" && exists i :: 0 <= i < |trips| && trips[i].flight.Some? && trips[i].flight.value.destinationAirport.country == c {
          var i :| 0 <= i < |trips| && trips[i].flight.Some? && trips[i].flight.value.destinationAirport.country == c;
          if i < |init| {
            assert init[i] == trips[i];
          }
        }
      }
    }
  }

  /** The three statistics are bounded by the number of bookings; with the
      list not yet loaded all three are 0. */
  lemma StatsBounds(trips: Option<seq<Trip>>, now: int)
    ensures |Upcoming(trips, now)| <= TotalTrips(trips)
    ensures |Countries(OrEmpty(trips))| <= TotalTrips(trips)
    ensures trips.None? ==> TotalTrips(trips) == 0 && Upcoming(trips, now) == [] && Countries(OrEmpty(trips)) == {}
  {
    CountriesAreDistinctDestinations(OrEmpty(trips));
  }

  /** `email.split('@')[0]`: the text before the first '@', or all of it. */
  function BeforeFirstAt(s: string): (r: string)
    ensures |r| <= |s| && r == s[..|r|]
    ensures forall i :: 0 <= i < |r| ==> r[i] != '@'
    ensures |r| == |s| || s[|r|] == '@'
  {
    if s == [] then ""
    else if s[0] == '@' then ""
    else [s[0]] + BeforeFirstAt(s[1..])
  }

  /** `user?.username || user?.email?.split('@')[0] || "Traveler"`. */
  function DisplayName(username: Option<string>, email: Option<string>): string
  {
    if username.Some? && username.value != "" then username.value
    else if email.Some? && BeforeFirstAt(email.value) != "" then BeforeFirstAt(email.value)
    else "Traveler"
  }

  /** The greeting is never empty; it is the username when there is one,
      else the start of the email up to its first '@' (a prefix with no
      '@' in it), and "Traveler" when both are missing or empty. */
  lemma DisplayNameFallback(username: Option<string>, email: Option<string>)
    ensures DisplayName(username, email) != ""
    ensures username.Some? && username.value != "" ==> DisplayName(username, email) == username.value
    ensures (username.None? || username.value == "") && email.Some? && email.value != "" && email.value[0] != '@' ==>
      var r := DisplayName(username, email);
      && r == email.value[..|r|] && '@' !in r
      && (|r| == |email.value| || email.value[|r|] == '@')
    ensures (username.None? || username.value == "") && (email.None? || email.value == "" || email.value[0] == '@') ==>
      DisplayName(username, email) == "Traveler"
  {
    if email.Some? && email.value != "" && email.value[0] != '@' {
      var r := BeforeFirstAt(email.value);
      assert r[0] == email.value[0];
    }
  }
}

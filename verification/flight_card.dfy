/** The data logic of a flight card in the search results: the fare shown
    for the chosen cabin, the total for the party, the duration split into
    hours and minutes, and the cabin-dependent baggage and meal texts. */
module FlightCard {
  import opened Common
  import opened Schema
  import Routes

  /** `getPrice`: the fare of the chosen cabin; any other class name reads
      as economy. */
  function FareFor(flight: Flight, seatClass: string): real
  {
    if seatClass == "business" then flight.businessPrice
    else if seatClass == "first" then flight.firstClassPrice
    else flight.economyPrice
  }

  /** `totalPrice`. */
  function TotalPrice(flight: Flight, seatClass: string, passengers: int): real
  {
    FareFor(flight, seatClass) * passengers as real
  }

  /** The "per person" line is rendered only for parties of two or more. */
  predicate ShowsPerPersonPrice(passengers: int) { passengers > 1 }

  /** The per-person line, when shown, is the total shared out evenly. */
  lemma PerPersonLine(flight: Flight, seatClass: string, passengers: int)
    ensures ShowsPerPersonPrice(passengers) ==>
      TotalPrice(flight, seatClass, passengers) / passengers as real == FareFor(flight, seatClass)
    ensures !ShowsPerPersonPrice(passengers) <==> passengers <= 1
    ensures passengers == 1 ==> TotalPrice(flight, seatClass, passengers) == FareFor(flight, seatClass)
  {
  }

  /** What the card quotes against what the server charges before seat
      charges: for economy the server's amount is the quote plus 12% tax;
      for a cabin whose fare differs from economy the two never agree,
      because the server always charges the economy fare. */
  lemma QuoteAgainstCharge(flight: Flight, seatClass: string, passengers: nat)
    ensures Routes.BookingTotal(flight.economyPrice, passengers, 0.0)
         == TotalPrice(flight, "economy", passengers) * 1.12
    ensures passengers > 0 && FareFor(flight, seatClass) != flight.economyPrice ==>
      Routes.BookingTotal(flight.economyPrice, passengers, 0.0) != TotalPrice(flight, seatClass, passengers) * 1.12
  {
    if passengers > 0 && FareFor(flight, seatClass) != flight.economyPrice {
      var n := passengers as real;
      assert flight.economyPrice * n != FareFor(flight, seatClass) * n;
    }
  }

  /** JavaScript's `%`: the remainder takes the sign of the dividend. */
  function JsRemainder(a: int, b: int): (r: int)
    requires b > 0
    ensures a >= 0 ==> 0 <= r < b
    ensures a < 0 ==> -b < r <= 0
  {
    if a >= 0 then a % b else -((-a) % b)
  }

  /** `hours = Math.floor(durationMins / 60)` (Dafny's `/` floors for a
      positive divisor) and `minutes = durationMins % 60`. */
  function DurationSplit(durationMins: int): (int, int)
  {
    (durationMins / 60, JsRemainder(durationMins, 60))
  }

  /** For a non-negative duration the split is exact: whole hours and
      0 to 59 minutes. */
  lemma DurationSplitExact(durationMins: int)
    requires durationMins >= 0
    ensures var (hours, minutes) := DurationSplit(durationMins);
      hours * 60 + minutes == durationMins && 0 <= minutes < 60 && hours >= 0
  {
  }

  /** For a negative duration that is not whole hours, the floored hours and
      the truncated minutes do not add up: the split reads one hour short. */
  lemma DurationSplitNegative(durationMins: int)
    requires durationMins < 0
    ensures var (hours, minutes) := DurationSplit(durationMins);
      && (durationMins % 60 == 0 ==> hours * 60 + minutes == durationMins)
      && (durationMins % 60 != 0 ==> hours * 60 + minutes == durationMins - 60 && -60 < minutes < 0)
  {
    var q := durationMins / 60;
    var m := (-durationMins) % 60;
    assert durationMins == q * 60 + durationMins % 60;
    assert -durationMins == ((-durationMins) / 60) * 60 + m;
    if durationMins % 60 != 0 {
      assert m == 60 - durationMins % 60;
    }
  }

  datatype CheckInAllowance = CheckInAllowance(bags: nat, kgPerBag: nat)

  /** The check-in line: economy, business, and anything else as first. */
  function CheckIn(seatClass: string): CheckInAllowance
  {
    if seatClass == "economy" then CheckInAllowance(1, 23)
    else if seatClass == "business" then CheckInAllowance(2, 32)
    else CheckInAllowance(3, 32)
  }

  /** The meal badge. */
  function MealBadge(seatClass: string): string
  {
    if seatClass == "economy" then "Snacks" else "Meals Included"
  }

  /** Each cabin's extras: one 23 kg bag and snacks in economy, two 32 kg
      bags with meals in business, three 32 kg bags with meals in first;
      the allowance grows with the cabin, and meals come with every cabin
      above economy. */
  lemma CabinExtras(seatClass: string)
    ensures CheckIn("economy") == CheckInAllowance(1, 23) && MealBadge("economy") == "Snacks"
    ensures CheckIn("business") == CheckInAllowance(2, 32) && MealBadge("business") == "Meals Included"
    ensures CheckIn("first") == CheckInAllowance(3, 32) && MealBadge("first") == "Meals Included"
    ensures CheckIn("economy").bags < CheckIn("business").bags < CheckIn("first").bags
    ensures MealBadge(seatClass) == "Snacks" <==> seatClass == "economy"
    ensures seatClass != "economy" ==> CheckIn(seatClass).kgPerBag == 32 && CheckIn(seatClass).bags >= 2
  {
  }
}

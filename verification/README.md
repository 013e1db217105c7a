# SkyVoyage booking core in Dafny

This project models the data logic of the SkyVoyage flight-booking system:

- **Server.** The HTTP handlers that create and cancel a booking and guard the flight endpoints (`server/routes.ts`), and the `DatabaseStorage` table operations they rely on (`server/storage.ts`).
- **Client.** The pure helpers inside six client components and pages: the payment form, passenger form, seat map, flight card, traveller dashboard and admin page.

Module layout follows the program's structure:

- `common.dfy` (`Common`): sequence helpers shared by all modules (`Filter`, `FilterMap`, `MapSeq`, `FirstWhere`, `SumOf`) and their lemmas.
- `schema.dfy` (`Schema`): the row types read by the server (airports, airlines, flights, seats, bookings, passengers) and the joined records the storage returns.
- `storage.dfy` (`Storage`):
  - the class `DatabaseStorage`, with one `seq` field per table, whose methods update those fields or build result lists in loops;
  - the functions and lemmas that define each query over a snapshot of the tables.
- `routes.dfy` (`Routes`):
  - `generatePNR`;
  - the `POST /api/bookings` and `PATCH /api/bookings/:id/cancel` handlers, each a method over a `DatabaseStorage`, proved equal to a function from the old tables to the response and the new tables (`CreateOutcome`, `CancelOutcome`);
  - the guards of `GET /api/flights/:id` and `GET /api/flights/search`.
- One module per client file:
  - `payment_form.dfy` (`PaymentForm`) and `passenger_form.dfy` (`PassengerForm`);
  - `seat_map.dfy` (`SeatMap`) and `flight_card.dfy` (`FlightCard`);
  - `dashboard.dfy` (`Dashboard`) and `admin.dfy` (`Admin`).

Abstractions:

- **Money** is `real`: exact, with no binary floating point and no `toFixed(2)` rounding.
- **Time** is an `int` timestamp.
- **Inputs instead of effects.** The following are passed in as parameters:
  - the six `Math.random` draws of the PNR;
  - the keys the database generates on insert;
  - the clock read by `updatedAt`;
  - the day window of the flight search.

Behaviours of the code that the model keeps as written:

- **Fare.** The server always charges the economy fare, whatever cabin the client shows (`routes.ts:124`). `FlightCard.QuoteAgainstCharge` states the consequence.
- **Tax.** Tax is 12% of the fare part only. Seat charges are not taxed (`routes.ts:126`). So 100.00 × 2 passengers with seats at 10.00 and 15.00 costs 249.00 (`Routes.TwoPassengerExample`).
- **Seat marking.** Seats are marked taken without any check of their availability, their flight or their cabin (`routes.ts:159-161`). There is no conflict error.
- **Surge pricing.** The ticket text says the price "Includes taxes and dynamic surge pricing" (`client/src/lib/generateTicket.ts:65`), but no code computes a surge: the total is fare, seat charges and tax only.
- **PNR.** The PNR is not checked for uniqueness. Its alphabet is used exactly as written: it has no `5` and repeats `1`, `2` and `3`.
- **Cancel.** Cancel does not look at the booking's current status (`routes.ts:184`). A second cancel succeeds again, stamps a new `updatedAt` and leaves the seat table as the first cancel left it (`Routes.CancelIsIdempotent`). But a seat of the booking that someone took after the first cancel is made available again by the second (`Routes.CancelAgainReleasesRetakenSeat`).
- **Card schema.** `cardSchema` checks only the length of the card field (`PaymentForm.tsx:21`), and the formatter returns the field unchanged when it holds fewer than four digits. So sixteen letters pass as a card number (`PaymentForm.LetterCardNumberAccepted`).

## Model

| member | source | states |
|---|---|---|
| Routes.PnrFromDraws | server/routes.ts:6-13 | definition: character i of the PNR is the alphabet character at draw i |
| Routes.SeatCharges | server/routes.ts:121-125 | definition: the summed price of the flight's seats whose id the request lists |
| Routes.BookingTotal | server/routes.ts:124-127 | definition: economy fare × passengers, plus seat charges, plus 12% of the fare part |
| Routes.CreateOutcome | server/routes.ts:110-169 | definition: 404 with no change for an unresolved flight; otherwise the new booking row, one passenger row per traveller and each given seat marked unavailable |
| Routes.CancelOutcome | server/routes.ts:172-198 | definition: 404 or 403 with no change; otherwise the booking set to cancelled and its passengers' seats made available |
| Storage.FlightById | server/storage.ts:136-152 | definition: the first flight row with that id, joined with its airline and airports |
| Storage.BookingById | server/storage.ts:245-259 | definition: the first booking row with that id, joined with its flight and passengers |
| Storage.ResolvedFlights | server/storage.ts:114-134 | definition: each flight row joined, the unresolvable ones dropped |
| Storage.SearchResults | server/storage.ts:154-194 | definition: empty for an unknown code; otherwise the route's flights in the day window whose airline exists, joined |
| Storage.EnrichedBookings | server/storage.ts:226-243 | definition: each booking joined with its flight and passengers, the unresolvable ones dropped |
| Storage.SetSeatAvailability | server/storage.ts:211-213 | definition: every row with that seat id gets the new availability |
| Storage.SetBookingStatus | server/storage.ts:269-274 | definition: every row with that booking id gets the new status and update time |
| PaymentForm.CardNumberText | client/src/components/PaymentForm.tsx:53-65 | definition: the groups of four of the first match joined by spaces, or the input when there is no match |
| PaymentForm.ExpiryText | client/src/components/PaymentForm.tsx:181-184 | definition: the digits, with a slash after the second once there are two |
| PaymentForm.CardSchemaAccepts | client/src/components/PaymentForm.tsx:20-25 | definition: card field 16–19 characters, holder at least 3, expiry `^\d{2}\/\d{2}$`, CVV 3–4 |
| PassengerForm.PassengerSchemaAccepts | client/src/components/PassengerForm.tsx:32-38 | definition: one of the five titles, names of at least 2 characters, a date of birth |
| PassengerForm.FormDefaults | client/src/components/PassengerForm.tsx:52-58 | definition: each supplied value or its fallback by JavaScript `||` |
| PassengerForm.DateDisabled | client/src/components/PassengerForm.tsx:165 | definition: a date after now is disabled |
| PassengerForm.PickerSelectable | client/src/components/PassengerForm.tsx:165-169 | definition: a day is offered when the `disabled` rule lets it through and it lies between 1 January 1920 and the end of the current year |
| SeatMap.StatusOf | client/src/components/SeatMap.tsx:28-33 | definition: `getSeatStatus`'s four cases in the source's order |
| SeatMap.ClickForwarded | client/src/components/SeatMap.tsx:35-42 | definition: `handleSeatClick`'s guards |
| SeatMap.SelectedTotal | client/src/components/SeatMap.tsx:44-47 | definition: the sum over the selected ids of the first matching seat's price, 0 for none |
| FlightCard.FareFor | client/src/components/FlightCard.tsx:29-38 | definition: `getPrice`, with economy for any other class name |
| FlightCard.TotalPrice | client/src/components/FlightCard.tsx:40 | definition: the fare times the passenger count |
| FlightCard.DurationSplit | client/src/components/FlightCard.tsx:25-27 | definition: floored hours and JavaScript-remainder minutes |
| FlightCard.CheckIn | client/src/components/FlightCard.tsx:158 | definition: the check-in allowance by cabin |
| FlightCard.MealBadge | client/src/components/FlightCard.tsx:175 | definition: the meal badge by cabin |
| Dashboard.Upcoming | client/src/pages/Dashboard.tsx:39-41 | definition: the trips with a flight still ahead and status confirmed |
| Dashboard.Past | client/src/pages/Dashboard.tsx:43-45 | definition: the trips with a flight already departed or status cancelled |
| Dashboard.Countries | client/src/pages/Dashboard.tsx:59-62 | definition: the set of non-empty destination countries |
| Dashboard.DisplayName | client/src/pages/Dashboard.tsx:71 | definition: username, else email before '@', else "Traveler", by JavaScript truthiness |
| Admin.FilteredFlights | client/src/pages/Admin.tsx:115-120 | definition: the flights whose number or airport codes include the term, ignoring case |
| Admin.Revenue | client/src/pages/Admin.tsx:103 | definition: the sum of the booking totals, 0 when not loaded |
| Admin.RecentBookings | client/src/pages/Admin.tsx:404 | definition: the first ten bookings |
| Storage.FlightDetailsJoin | server/storage.ts:136-152 | a flight joins exactly when its airline and both airports exist; the join carries that flight, and rows from the tables with the flight's ids |
| Storage.FlightByIdSpec | server/storage.ts:136-152 | `getFlightById`: a result is the join of a flight row with that id; there is no result when no flight row has that id |
| Storage.FlightByIdOfUniqueRow | server/storage.ts:136-152 | with unique flight ids, the result is undefined exactly when the flight's airline or one of its airports is missing |
| Storage.SeatsByFlightIdSpec | server/storage.ts:202-204 | `getSeatsByFlightId` returns exactly the seat rows of that flight, as an order-preserving subsequence of the table |
| Storage.PassengersByBookingIdSpec | server/storage.ts:282-284 | `getPassengersByBookingId` returns exactly the passenger rows of that booking, in table order |
| Storage.BookingByIdSpec | server/storage.ts:245-259 | `getBookingById`: a result is a booking row with that id joined with its flight and its passengers; there is none when no booking row has that id |
| Storage.BookingByIdOfUniqueRow | server/storage.ts:245-259 | with unique booking ids, the result is undefined exactly when the booking's flight does not resolve |
| Storage.UpdateSeatAvailabilityOnlyThatSeat | server/storage.ts:211-213 | only the rows with that seat id get the new availability; every other row is unchanged; an unknown id changes nothing |
| Storage.UpdateBookingStatusOnlyThatBooking | server/storage.ts:269-274 | only the booking with that id gets the new status and update time; all others are unchanged |
| Storage.SetEachSeatEffect | server/storage.ts:211-213 | calling the seat update for a list of ids in turn changes a row exactly when its id is in the list, whatever its prior state |
| Storage.SetBookingStatusTwice | server/storage.ts:269-274 | setting the same status twice is setting it once |
| Storage.SetEachSeatTwice | server/storage.ts:211-213 | setting the same seats to the same availability twice is setting them once |
| Storage.SetEachSeatSnoc | server/storage.ts:211-213 | one more id in the list is one more single-seat update, applied last |
| Storage.GetFlightsKeepsResolvableInOrder | server/storage.ts:114-134 | `getFlights` keeps table order and drops exactly the flights whose airline or airports do not resolve; each kept flight carries its own join |
| Storage.SearchFlightsSemantics | server/storage.ts:154-194 | `searchFlights`: empty when either airport code is unknown; otherwise, in table order, exactly the flights on that route departing within the day window whose airline exists, joined with the airports found by code |
| Storage.EnrichBookingsKeepsResolvableInOrder | server/storage.ts:226-243 | `enrichBookings` keeps list order and drops exactly the bookings whose flight does not resolve; each kept booking carries that flight and its passengers |
| Storage.DatabaseStorage.UpdateSeatAvailability | server/storage.ts:211-213 | the seat table becomes the updated seat table; every other table is unchanged |
| Storage.DatabaseStorage.UpdateBookingStatus | server/storage.ts:269-274 | the booking table becomes the updated booking table; every other table is unchanged |
| Storage.DatabaseStorage.CreateBooking | server/storage.ts:261-267 | appends exactly one booking row, carrying the given PNR and values, and returns it |
| Storage.DatabaseStorage.CreatePassenger | server/storage.ts:277-280 | appends exactly one passenger row and returns it |
| Storage.DatabaseStorage.GetFlights | server/storage.ts:114-134 | the loop returns the resolved flights of the current tables |
| Storage.DatabaseStorage.SearchFlights | server/storage.ts:154-194 | the lookups and the loop return the search results of the current tables |
| Storage.DatabaseStorage.EnrichBookings | server/storage.ts:226-243 | the loop returns the enriched bookings of the current tables |
| Storage.DatabaseStorage.GetBookingsByUserId | server/storage.ts:216-219 | enriches the user's booking rows, in table order |
| Storage.DatabaseStorage.GetAllBookings | server/storage.ts:221-224 | enriches every booking row, in table order |
| Routes.GeneratePnr | server/routes.ts:6-13 | the loop builds exactly six characters; character i is the alphabet character at draw i |
| Routes.PnrShape | server/routes.ts:6-13 | every PNR has six characters, each from the alphabet, each an upper-case letter or digit, and never '5' |
| Routes.AlphabetCharacter | server/routes.ts:7 | every alphabet character is an upper-case letter or digit other than '5' |
| Routes.SeatChargesAreNotTaxed | server/routes.ts:121-127 | the total minus seat charges is 1.12 × economy fare × passengers; seat charges pass through untaxed |
| Routes.UnmatchedSeatIdAddsNothing | server/routes.ts:121-125 | a requested id that names none of the flight's seats adds nothing to the total |
| Routes.SeatChargesDependOnIdSetOnly | server/routes.ts:122-125 | seat charges depend only on the set of requested ids: repeating an id or reordering the ids changes nothing |
| Routes.OtherFlightSeatIsNotCharged | server/routes.ts:121-125 | when seat ids are unique, a seat of another flight in the request is not charged |
| Routes.TotalCoversTaxedFare | server/routes.ts:121-127 | with non-negative seat prices the total is at least the taxed fare |
| Routes.TwoPassengerExample | server/routes.ts:121-127 | fare 100, two passengers, seats 10 and 15 cost 249 |
| Routes.CreateBooking | server/routes.ts:110-169 | the handler's response and new tables are those of `CreateOutcome` for the PNR from its draws |
| Routes.AddPassengers | server/routes.ts:146-162 | the loop appends one row per passenger and marks each given seat unavailable, in order |
| Routes.TakenSeatIdsMembers | server/routes.ts:146-161 | a seat id is marked exactly when it is the non-empty `seatIds[i]` of some passenger i; ids past the passenger count are never marked |
| Routes.CreateUnknownFlight | server/routes.ts:116-119 | 404 exactly when the flight does not resolve, and then no table changes; an unknown flight id always gives 404 |
| Routes.CreatedBookingRow | server/routes.ts:112-143 | the response is 200 with the one new booking row: confirmed, paid, guest user, the given PNR and payment method, total = 1.12 × fare × passengers + seat charges; flights, airlines and airports are unchanged |
| Routes.CreatedPassengerRows | server/routes.ts:146-156 | exactly one row per passenger is appended after the old rows; passenger i gets its title, names, date of birth, the booking id, its passport number or null when that is missing or empty, and `seatIds[i]`, or no seat when that entry is missing or empty |
| Routes.CreatedSeatsMarked | server/routes.ts:159-161 | each passenger's seat is set unavailable whatever its prior state; every other seat row is unchanged |
| Routes.CreatePreservesKeys | server/routes.ts:133-162 | with fresh keys, the seat, booking and passenger id columns stay unique |
| Routes.CancelBooking | server/routes.ts:172-198 | the handler's response and new tables are those of `CancelOutcome` |
| Routes.ReleaseSeats | server/routes.ts:187-191 | the loop makes each passenger's non-empty seat available, in order |
| Routes.CancelRefusalsChangeNothing | server/routes.ts:174-182 | 404 exactly when the booking is not found; 403 exactly when it is found and owned by someone else; neither changes any table |
| Routes.CancelEffect | server/routes.ts:184-191 | a successful cancel sets that booking to "cancelled" with a new update time and makes every seat held by its passengers available; nothing else changes |
| Routes.CancelledBookingStillFound | server/routes.ts:174-184 | after the status update the booking is still found, with the same passengers, now "cancelled" |
| Routes.CancelIsIdempotent | server/routes.ts:172-193 | cancelling again at any later instant succeeds, changes only the booking's `updatedAt` (the seats it releases are already available); at the same instant the tables stay as they are |
| Routes.CancelAgainReleasesRetakenSeat | server/routes.ts:184-191 | a seat of the booking's passengers that was taken again after the first cancel is made available by a second cancel, which still succeeds |
| Routes.GetFlightRoute | server/routes.ts:73-84 | 404 exactly when `getFlightById` finds nothing; otherwise the body is the join of the first flight row with that id, which resolves |
| Routes.SearchRoute | server/routes.ts:52-70 | 400 exactly when a query parameter is missing or empty; otherwise the body is the storage search result |
| PaymentForm.DigitsOnly | client/src/components/PaymentForm.tsx:54 | stripping spaces and non-digits leaves only digits, never more characters |
| PaymentForm.FormatCardNumber | client/src/components/PaymentForm.tsx:53-65 | the stepping loop joins the groups of the first match, as `CardNumberText` defines |
| PaymentForm.GroupsLayout | client/src/components/PaymentForm.tsx:57-62 | the joined groups have a space exactly at every fifth position and a digit of the match everywhere else |
| PaymentForm.GroupsDigits | client/src/components/PaymentForm.tsx:57-62 | removing the spaces from the joined groups gives back the match |
| PaymentForm.ShortCardInputUnchanged | client/src/components/PaymentForm.tsx:54-64 | with fewer than four digits the input comes back unchanged |
| PaymentForm.FormattedCardNumber | client/src/components/PaymentForm.tsx:53-65 | with four digits or more: only digits and single spaces; spaces exactly at positions 4, 9, 14; at most 19 characters; the digits are the first min(16, n) digits of the input |
| PaymentForm.CardFormatIdempotent | client/src/components/PaymentForm.tsx:53-65 | formatting an already formatted value changes nothing |
| PaymentForm.FormatExpiry | client/src/components/PaymentForm.tsx:181-184 | the handler stores the digits, with a slash after the month once two digits are typed |
| PaymentForm.ExpiryShape | client/src/components/PaymentForm.tsx:181-188 | at most 5 characters; a slash at index 2 exactly when two or more digits were typed; digits elsewhere; the first four digits typed are kept |
| PaymentForm.ExpiryMatchesPatternIff | client/src/components/PaymentForm.tsx:23 | the stored expiry matches `^\d{2}\/\d{2}$` exactly when four or more digits were typed |
| PaymentForm.ExpiryFormatIdempotent | client/src/components/PaymentForm.tsx:181-184 | reformatting a stored expiry changes nothing |
| PaymentForm.FormattedFormAccepted | client/src/components/PaymentForm.tsx:20-25 | a form filled through both formatters passes `cardSchema` exactly when the card field has at least 13 digits or (fewer than 4 digits and 16–19 characters as typed), the holder at least 3 characters, four expiry digits were typed and the CVV has 3–4 characters |
| PaymentForm.LetterCardNumberAccepted | client/src/components/PaymentForm.tsx:20-25 | the card field "abcdefghijklmnop" with holder "Bob", expiry "1226" and CVV "123" passes `cardSchema` |
| PassengerForm.PassengerSchemaRules | client/src/components/PassengerForm.tsx:32-38 | accepted exactly for one of the five titles, both names of two or more characters and a date of birth; the passport number never decides |
| PassengerForm.OrElse | client/src/components/PassengerForm.tsx:52-58 | JavaScript `||`: a present non-empty value is kept, and a missing or empty one gives the fallback |
| PassengerForm.EmptyDefaultsAreRejected | client/src/components/PassengerForm.tsx:52-58 | without supplied values the form starts as Mr, empty names, no date and empty passport, which the schema rejects |
| PassengerForm.SuppliedDefaults | client/src/components/PassengerForm.tsx:52-58 | supplied non-empty values are kept, empty ones act as missing ones, the date is passed through, and a passport string is always present |
| PassengerForm.PickerOffersOnlyThePast | client/src/components/PassengerForm.tsx:165-169 | the `disabled` rule rejects exactly the instants after now and lets through a set closed downwards; a date before 1920 is never offered, and since the year ends no earlier than now the offered dates are exactly those from 1920 up to now |
| SeatMap.ClassSeats | client/src/components/SeatMap.tsx:17 | keeps exactly the seats of the requested cabin |
| SeatMap.InsertRow | client/src/components/SeatMap.tsx:19 | insertion keeps the row list strictly ascending and adds exactly the new row |
| SeatMap.Rows | client/src/components/SeatMap.tsx:19 | the row list is strictly ascending |
| SeatMap.RowsAreTheDistinctRows | client/src/components/SeatMap.tsx:19 | the rows are exactly the distinct row numbers of the seats, strictly ascending |
| SeatMap.Columns | client/src/components/SeatMap.tsx:20-22 | the letters are a prefix of A–F: four of them exactly for first and business, all six otherwise |
| SeatMap.GetSeat | client/src/components/SeatMap.tsx:24-26 | a found seat is the first seat of the cabin, in list order, in that row and column; nothing is found exactly when there is no such seat |
| SeatMap.StatusRules | client/src/components/SeatMap.tsx:28-33 | none, occupied (even when selected), selected or available, each under exactly its condition |
| SeatMap.ClickMatchesStatus | client/src/components/SeatMap.tsx:35-42 | a click is forwarded exactly for a selected cell, or for an available cell while the selection is below the cap |
| SeatMap.SelectionStaysWithinCap | client/src/components/SeatMap.tsx:35-42 | a forwarded click is on an available seat, and adding a new seat keeps the selection within the cap |
| SeatMap.SelectedTotalRules | client/src/components/SeatMap.tsx:44-47 | an empty selection costs 0; totals add over concatenation; an unknown id adds 0; a known id adds the price of the first seat with that id |
| SeatMap.SelectedTotalNonNegative | client/src/components/SeatMap.tsx:44-47 | with non-negative prices the total is non-negative |
| FlightCard.PerPersonLine | client/src/components/FlightCard.tsx:40-114 | the per-person line is shown exactly for two or more passengers and is then the total divided evenly; one passenger's total is the fare |
| FlightCard.QuoteAgainstCharge | client/src/components/FlightCard.tsx:29-40 | the economy quote × 1.12 is the server's fare-plus-tax charge; for a cabin whose fare differs from economy the two never agree |
| FlightCard.JsRemainder | client/src/components/FlightCard.tsx:27 | JavaScript `%` takes the sign of the dividend, with magnitude below the divisor |
| FlightCard.DurationSplitExact | client/src/components/FlightCard.tsx:25-27 | for a non-negative duration, hours × 60 + minutes is the duration and 0 ≤ minutes < 60 |
| FlightCard.DurationSplitNegative | client/src/components/FlightCard.tsx:25-27 | for a negative duration that is not whole hours, the split reads one hour short, with negative minutes |
| FlightCard.CabinExtras | client/src/components/FlightCard.tsx:158-175 | check-in is 1×23 kg, 2×32 kg or 3×32 kg by cabin; the meal badge reads "Snacks" exactly for economy |
| Dashboard.UpcomingAndPastSplit | client/src/pages/Dashboard.tsx:39-45 | both lists are order-preserving subsequences of the bookings, and no trip is in both |
| Dashboard.WhereEachTripLands | client/src/pages/Dashboard.tsx:39-45 | a trip without a flight is in neither list; a cancelled or departed one is past; a confirmed future one is upcoming; an unconfirmed, uncancelled future one is in neither |
| Dashboard.CountriesAreDistinctDestinations | client/src/pages/Dashboard.tsx:59-62 | "Countries" holds exactly the non-empty destination countries, and is never more than the number of trips |
| Dashboard.StatsBounds | client/src/pages/Dashboard.tsx:47-65 | "Upcoming" and "Countries" never exceed "Total Trips"; all are 0 before the list loads |
| Dashboard.BeforeFirstAt | client/src/pages/Dashboard.tsx:71 | the result is the prefix of the email up to (not including) the first '@', or all of it |
| Dashboard.DisplayNameFallback | client/src/pages/Dashboard.tsx:71 | the greeting is never empty: the username, otherwise the email prefix before '@', otherwise "Traveler" |
| Admin.IncludesAtPosition | client/src/pages/Admin.tsx:117-119 | `includes` holds exactly when the term occurs at some position |
| Admin.FilterKeepsMatchingInOrder | client/src/pages/Admin.tsx:115-120 | the filter keeps exactly the matching flights, as an order-preserving subsequence |
| Admin.EmptyTermKeepsAll | client/src/pages/Admin.tsx:115-120 | an empty search term keeps every flight |
| Admin.LowerOfUpper | client/src/pages/Admin.tsx:117-119 | lower-casing an upper-cased ASCII string equals lower-casing it directly |
| Admin.SearchIgnoresCase | client/src/pages/Admin.tsx:115-120 | a term and its upper-case form select the same flights |
| Admin.RevenueRules | client/src/pages/Admin.tsx:103 | revenue is 0 before loading and for no bookings, adds up over any split of the list, and is non-negative for non-negative totals |
| Admin.RecentBookingsAreTheFirstTen | client/src/pages/Admin.tsx:91-404 | the table shows the first bookings in order: at most ten, all of them when there are at most ten; the counts are 0 before loading |

## Left out

- Surge pricing: no code in the core counts booking attempts or applies a multiplier, so there is nothing to model.
- The alternative booking schema in `shared/schema.ts` (passenger name, seat number and total price on the booking): it conflicts with the tables that `server/storage.ts` uses, and the model uses the latter.
- Page glue, rendering, routing and PDF tickets: these build URLs and requests, lay out components or call jsPDF. They hold none of the decision logic modelled here.
- `toFixed(2)`, `parseFloat` and IEEE floating point: money is exact `real`. The stored total is not rounded to cents, and the revenue is not formatted with `toLocaleString`.
- Time zones and `setHours`: the start and end of the searched day are inputs to `Storage.SearchFlights`. How they are derived from the date string is not modelled.
- `differenceInMinutes` and `new Date()`: the duration in minutes and the current instant are inputs.
- `Math.random`: the six PNR draws are inputs. The model covers every possible draw sequence, but not their distribution.
- Database-generated keys and timestamps: the booking id, the passenger ids and the `updatedAt` instant are inputs. `Routes.CreatePreservesKeys` assumes they are fresh.
- Concurrency and transactions: the handlers' awaited writes are modelled as sequential steps on one store. Nothing is claimed about interleaving with other requests or about partial failure.
- The 500 responses: the model has no storage faults, so the `catch` branches are not modelled.
- The ORM's query building and the `onConflictDoUpdate` upsert paths are not modelled; each table is a sequence of rows, and a single-row query keeps the first match.
- Case mapping: `toLowerCase` and `toUpperCase` are modelled on ASCII letters only, so `Admin.SearchIgnoresCase` is stated for ASCII case.
- Request validation: the create handler reads the body without checking it. The model takes a well-typed request, so a missing `passengers` or `seatIds` array (a 500 in the source) is not modelled.
- String lengths: `PassengerForm.PassengerSchemaAccepts`, `PaymentForm.CardSchemaAccepts` and the lemmas about them count characters, while zod's `min`/`max` and JavaScript's `length` count UTF-16 code units. So the model differs from the source on text outside the Basic Multilingual Plane; for example a one-character emoji first name passes `min(2)` in the source but not in the model.
- PassengerForm.PickerOffersOnlyThePast: the calendar's range is taken as two inputs, the first instant of 1920 and the last instant of the current year. Deriving them from the clock, and the calendar's day granularity, are not modelled.
- Authentication: the server uses a fixed guest user and the pages' login redirects are not modelled.
- FlightCard.JsRemainder: states only the sign and the bound of JavaScript's `%`, not that the dividend minus the remainder is a multiple of the divisor; `FlightCard.DurationSplitExact` and `FlightCard.DurationSplitNegative` state the exact split for the divisor 60.

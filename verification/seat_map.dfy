/** The data logic of the seat map: which seats are drawn for a cabin,
    the rows and columns of the grid, the status of each cell, whether a
    click is passed on, and the price of the current selection. */
module SeatMap {
  import opened Common
  import opened Schema

  /** `seats.filter(s => s.seatClass === seatClass)`. */
  function ClassSeats(seats: seq<Seat>, seatClass: string): (r: seq<Seat>)
    ensures forall i :: 0 <= i < |r| ==> r[i] in seats && r[i].seatClass == seatClass
    ensures forall i :: 0 <= i < |seats| && seats[i].seatClass == seatClass ==> seats[i] in r
  {
    FilterMembers(seats, (s: Seat) => s.seatClass == seatClass);
    Filter(seats, (s: Seat) => s.seatClass == seatClass)
  }

  predicate StrictlyAscending(xs: seq<int>)
  {
    forall i, j :: 0 <= i < j < |xs| ==> xs[i] < xs[j]
  }

  /** Puts `x` into a strictly ascending list unless it is already there. */
  function InsertRow(xs: seq<int>, x: int): (r: seq<int>)
    requires StrictlyAscending(xs)
    ensures StrictlyAscending(r)
    ensures forall y :: y in r <==> y in xs || y == x
  {
    if xs == [] then [x]
    else if x < xs[0] then [x] + xs
    else if x == xs[0] then xs
    else
      var rest := InsertRow(xs[1..], x);
      assert forall y :: y in xs <==> y == xs[0] || y in xs[1..];
      assert forall k :: 0 <= k < |rest| ==> xs[0] < rest[k] by {
        forall k | 0 <= k < |rest| ensures xs[0] < rest[k] {
          if rest[k] != x {
            assert rest[k] in rest;
            var j :| 0 <= j < |xs[1..]| && xs[1..][j] == rest[k];
            assert xs[j + 1] == rest[k];
          }
        }
      }
      [xs[0]] + rest
  }

  /** `[...new Set(seats.map(s => s.row))].sort((a, b) => a - b)`. */
  function Rows(seats: seq<Seat>): (r: seq<int>)
    ensures StrictlyAscending(r)
  {
    if seats == [] then [] else InsertRow(Rows(seats[..|seats| - 1]), seats[|seats| - 1].row)
  }

  /** The rows are the distinct row numbers of the seats, ascending. */
  lemma {:induction false} RowsAreTheDistinctRows(seats: seq<Seat>)
    ensures StrictlyAscending(Rows(seats))
    ensures forall row :: row in Rows(seats) <==> exists i :: 0 <= i < |seats| && seats[i].row == row
  {
    if seats != [] {
      var init := seats[..|seats| - 1];
      RowsAreTheDistinctRows(init);
      forall row
        ensures row in Rows(seats) <==> exists i :: 0 <= i < |seats| && seats[i].row == row
      {
        if row in Rows(init) {
          var i :| 0 <= i < |init| && init[i].row == row;
          assert seats[i].row == row;
        }
        if exists i :: 0 <= i < |seats| && seats[i].row == row {
          var i :| 0 <= i < |seats| && seats[i].row == row;
          if i < |init| {
            assert init[i].row == row;
          }
        }
      }
    }
  }

  /** The seat letters of a cabin: the first four letters of the economy
      layout in the two premium cabins, all six otherwise. */
  function Columns(seatClass: string): (r: seq<string>)
    ensures |r| == 4 <==> seatClass == "first" || seatClass == "business"
    ensures |r| == 4 || |r| == 6
    ensures r == ["A", "B", "C", "D", "E", "F"][..|r|]
  {
    if seatClass == "first" then ["A", "B", "C", "D"]
    else if seatClass == "business" then ["A", "B", "C", "D"]
    else ["A", "B", "C", "D", "E", "F"]
  }

  /** `getSeat(row, column)`: the first seat of the cabin, in list order,
      in that cell. */
  function GetSeat(seats: seq<Seat>, seatClass: string, row: int, column: string): (r: Option<Seat>)
    ensures r.Some? ==> r.value in seats && r.value.seatClass == seatClass && r.value.row == row && r.value.column == column
    ensures r.None? <==> forall i :: 0 <= i < |seats| ==>
      !(seats[i].seatClass == seatClass && seats[i].row == row && seats[i].column == column)
    ensures r.Some? ==> var cabin := ClassSeats(seats, seatClass);
      exists i :: 0 <= i < |cabin| && r.value == cabin[i]
        && forall j :: 0 <= j < i ==> !(cabin[j].row == row && cabin[j].column == column)
  {
    var cabin := ClassSeats(seats, seatClass);
    var r := FirstWhere(cabin, (s: Seat) => s.row == row && s.column == column);
    FirstWhereSpec(cabin, (s: Seat) => s.row == row && s.column == column);
    assert r.None? ==> forall i :: 0 <= i < |seats| ==>
      !(seats[i].seatClass == seatClass && seats[i].row == row && seats[i].column == column) by {
      if r.None? {
        forall i | 0 <= i < |seats| && seats[i].seatClass == seatClass
          ensures !(seats[i].row == row && seats[i].column == column)
        {
          var j :| 0 <= j < |cabin| && cabin[j] == seats[i];
        }
      }
    }
    r
  }

  datatype SeatStatus = NoSeat | Occupied | Selected | Available

  /** `getSeatStatus`. */
  function StatusOf(seat: Option<Seat>, selectedSeats: seq<Id>): SeatStatus
  {
    if seat.None? then NoSeat
    else if !seat.value.isAvailable then Occupied
    else if seat.value.id in selectedSeats then Selected
    else Available
  }

  /** `handleSeatClick`: whether `onSeatSelect` is called. */
  predicate ClickForwarded(seat: Option<Seat>, selectedSeats: seq<Id>, maxSelections: int)
  {
    if seat.None? || !seat.value.isAvailable then false
    else if seat.value.id in selectedSeats then true
    else |selectedSeats| < maxSelections
  }

  /** The status rules: an unavailable seat shows occupied even when it is
      in the selection, and a cell shows selected only for an available
      seat in the selection. */
  lemma StatusRules(seat: Option<Seat>, selectedSeats: seq<Id>)
    ensures StatusOf(seat, selectedSeats) == NoSeat <==> seat.None?
    ensures StatusOf(seat, selectedSeats) == Occupied <==> seat.Some? && !seat.value.isAvailable
    ensures StatusOf(seat, selectedSeats) == Selected <==> seat.Some? && seat.value.isAvailable && seat.value.id in selectedSeats
    ensures StatusOf(seat, selectedSeats) == Available <==> seat.Some? && seat.value.isAvailable && seat.value.id !in selectedSeats
  {
  }

  /** A click is passed on exactly for a cell shown selected (to deselect
      it) or shown available while the selection is below the cap. */
  lemma ClickMatchesStatus(seat: Option<Seat>, selectedSeats: seq<Id>, maxSelections: int)
    ensures ClickForwarded(seat, selectedSeats, maxSelections) <==>
      StatusOf(seat, selectedSeats) == Selected
      || (StatusOf(seat, selectedSeats) == Available && |selectedSeats| < maxSelections)
  {
  }

  /** When the parent adds each forwarded new seat to the selection, the
      selection never grows past the cap. */
  lemma SelectionStaysWithinCap(seat: Option<Seat>, selectedSeats: seq<Id>, maxSelections: int)
    requires |selectedSeats| <= maxSelections
    requires ClickForwarded(seat, selectedSeats, maxSelections)
    ensures seat.Some? && seat.value.isAvailable
    ensures seat.value.id !in selectedSeats ==> |selectedSeats + [seat.value.id]| <= maxSelections
  {
  }

  /** The price of one selected id: the first seat with that id in the full
      list (not only the cabin shown), or 0 when there is none. */
  function PriceOfId(seats: seq<Seat>, seatId: Id): real
  {
    match FirstWhere(seats, (s: Seat) => s.id == seatId)
    case Some(s) => s.price
    case None => 0.0
  }

  /** `selectedTotal`. */
  function SelectedTotal(seats: seq<Seat>, selectedSeats: seq<Id>): real
  {
    SumOf(selectedSeats, (id: Id) => PriceOfId(seats, id))
  }

  /** An empty selection costs 0; an id that names no seat adds 0; a known
      id adds its seat's price; the total of two selections is the sum. */
  lemma SelectedTotalRules(seats: seq<Seat>, a: seq<Id>, b: seq<Id>, id: Id)
    ensures SelectedTotal(seats, []) == 0.0
    ensures SelectedTotal(seats, a + b) == SelectedTotal(seats, a) + SelectedTotal(seats, b)
    ensures (forall i :: 0 <= i < |seats| ==> seats[i].id != id) ==>
      SelectedTotal(seats, a + [id]) == SelectedTotal(seats, a)
    ensures forall i :: 0 <= i < |seats| && seats[i].id == id && (forall j :: 0 <= j < i ==> seats[j].id != id) ==>
      SelectedTotal(seats, a + [id]) == SelectedTotal(seats, a) + seats[i].price
  {
    var price := (x: Id) => PriceOfId(seats, x);
    SumOfAppend(a, b, price);
    SumOfAppend(a, [id], price);
    assert [id][..0] == [];
    assert SumOf([id], price) == PriceOfId(seats, id);
    FirstWhereSpec(seats, (s: Seat) => s.id == id);
    forall i | 0 <= i < |seats| && seats[i].id == id && (forall j :: 0 <= j < i ==> seats[j].id != id)
      ensures PriceOfId(seats, id) == seats[i].price
    {
      var r := FirstWhere(seats, (s: Seat) => s.id == id);
      assert r.Some?;
      var k :| 0 <= k < |seats| && seats[k] == r.value && seats[k].id == id && forall j :: 0 <= j < k ==> seats[j].id != id;
      assert k == i;
    }
  }

  /** With non-negative seat prices the selection never costs less than 0. */
  lemma SelectedTotalNonNegative(seats: seq<Seat>, selectedSeats: seq<Id>)
    requires forall i :: 0 <= i < |seats| ==> seats[i].price >= 0.0
    ensures SelectedTotal(seats, selectedSeats) >= 0.0
  {
    var price := (x: Id) => PriceOfId(seats, x);
    forall x | x in selectedSeats ensures price(x) >= 0.0 {
      var r := FirstWhere(seats, (s: Seat) => s.id == x);
      FirstWhereSpec(seats, (s: Seat) => s.id == x);
      if r.Some? {
        var k :| 0 <= k < |seats| && seats[k] == r.value && seats[k].id == x && forall j :: 0 <= j < k ==> seats[j].id != x;
      }
    }
    SumOfNonNegative(selectedSeats, price);
  }
}

/** The tour services as they run: checks against live sums, then a row written. */
module TourDesk {
  import opened Wrappers
  import opened Rows
  import opened TourSeats

  class Desk {
    var tours: seq<Tour>
    var bookings: seq<Booking>

    function Tables(): State reads this { State(tours, bookings) }

    /** The call ended as the state change says; a refused call changed nothing. */
    ghost predicate Did(outcome: Outcome, before: State, error: Option<Error>) reads this {
      match outcome
      case Ok(after) => error.None? && Tables() == after
      case Err(e) => error == Some(e) && Tables() == before
    }

    constructor ()
      ensures Good(Tables()) && Tables() == State([], [])
    {
      tours, bookings := [], [];
    }

    method CreateBooking(t: nat, travellers: Option<nat>) returns (error: Option<Error>)
      modifies this
      ensures Did(Book(old(Tables()), t, travellers), old(Tables()), error)
      ensures old(Good(Tables())) ==> Good(Tables())
      ensures error.None? ==> Within(tours[t], Sold(bookings, t))
      ensures error.None? ==> forall u :: Sold(bookings, u) == old(Sold(bookings, u)) + if u == t then travellers.GetOr(1) else 0
      ensures error.None? <==> Accepted(old(Tables()), NewBooking(t, travellers))
      // A tour that is not open is not sold, whatever is left on it.
      ensures t < |tours| && tours[t].status != Open ==> error.Some?
      ensures error.None? ==>
        bookings == old(bookings) + [Booking(t, if travellers.Some? then travellers.value else 1, Reserved, false)]
    {
      AcceptedExactlyWhen(Tables(), NewBooking(t, travellers));
      if travellers == Some(0) {
        return Some(Invalid);
      }
      if !LiveTour(Tables(), t) {
        return Some(NotFound);
      }
      if tours[t].status != Open {
        return Some(NotOpen);
      }
      var wanted := travellers.GetOr(1);
      if tours[t].capacity.Some? {
        var seatsLeft := tours[t].capacity.value - Sold(bookings, t);
        if wanted > seatsLeft {
          return Some(Full);
        }
      }
      if Good(Tables()) { BookKeepsGood(Tables(), t, travellers); }
      bookings := bookings + [Booking(t, wanted, Reserved, false)];
      return None;
    }

    method UpdateBooking(k: nat, travellers: Option<nat>) returns (error: Option<Error>)
      modifies this
      ensures Did(EditBooking(old(Tables()), k, travellers), old(Tables()), error)
      ensures old(Good(Tables())) ==> Good(Tables())
      ensures error.None? && travellers.Some? ==> Within(tours[bookings[k].tour], Sold(bookings, bookings[k].tour))
      ensures error.None? ==> forall u ::
        Sold(bookings, u) == old(Sold(bookings, u)) + if bookings[k].Live() && u == bookings[k].tour
                                                      then bookings[k].travellers - old(bookings[k].travellers) else 0
      ensures error.None? <==> Accepted(old(Tables()), ChangeBooking(k, travellers))
      ensures error.None? ==>
        && |bookings| == |old(bookings)|
        && bookings == old(bookings)[k := old(bookings[k]).(travellers := bookings[k].travellers)]
        && bookings[k].travellers == if travellers.Some? then travellers.value else old(bookings[k].travellers)
    {
      AcceptedExactlyWhen(Tables(), ChangeBooking(k, travellers));
      if travellers == Some(0) {
        return Some(Invalid);
      }
      if !Exists(Tables(), k) || bookings[k].tour >= |tours| {
        return Some(NotFound);
      }
      var t := bookings[k].tour;
      if travellers.Some? && tours[t].capacity.Some? {
        var seatsLeft := tours[t].capacity.value - Sold(Except(bookings, k), t);
        if travellers.value > seatsLeft {
          return Some(Full);
        }
      }
      if Good(Tables()) { CallKeepsGood(Tables(), ChangeBooking(k, travellers)); }
      if travellers.Some? {
        RewriteMoves(bookings, k, bookings[k].(travellers := travellers.value));
        bookings := bookings[k := bookings[k].(travellers := travellers.value)];
      }
      return None;
    }

    method ChangeBookingStatus(k: nat, to: Status) returns (error: Option<Error>)
      modifies this
      ensures Did(Move(old(Tables()), k, to), old(Tables()), error)
      ensures old(Good(Tables())) ==> Good(Tables())
      // A cancellation gives all its seats back at once, and no other change of status moves any.
      ensures error.None? ==> forall u ::
        Sold(bookings, u) == old(Sold(bookings, u)) - if to == Cancelled && u == bookings[k].tour then bookings[k].travellers else 0
      ensures error.None? <==> Accepted(old(Tables()), MoveBooking(k, to))
      ensures error.None? ==> bookings == old(bookings)[k := old(bookings[k]).(status := to)]
    {
      AcceptedExactlyWhen(Tables(), MoveBooking(k, to));
      if !Exists(Tables(), k) {
        return Some(NotFound);
      }
      if !Allowed(bookings[k].status, to) {
        return Some(NotAllowed);
      }
      RewriteMoves(bookings, k, bookings[k].(status := to));
      if Good(Tables()) { CallKeepsGood(Tables(), MoveBooking(k, to)); }
      bookings := bookings[k := bookings[k].(status := to)];
      return None;
    }

    method DeleteBooking(k: nat) returns (error: Option<Error>)
      modifies this
      ensures Did(Unbook(old(Tables()), k), old(Tables()), error)
      ensures old(Good(Tables())) ==> Good(Tables())
      // A live booking's seats come back; a cancelled one had none left to give.
      ensures error.None? ==> forall u ::
        Sold(bookings, u) == old(Sold(bookings, u)) - if old(bookings[k]).Live() && u == bookings[k].tour
                                                      then bookings[k].travellers else 0
      ensures error.None? <==> k < |old(bookings)| && !old(bookings[k]).deleted
      ensures error.None? ==> bookings == old(bookings)[k := old(bookings[k]).(deleted := true)]
    {
      if !Exists(Tables(), k) {
        return Some(NotFound);
      }
      RewriteMoves(bookings, k, bookings[k].(deleted := true));
      if Good(Tables()) { CallKeepsGood(Tables(), RemoveBooking(k)); }
      bookings := bookings[k := bookings[k].(deleted := true)];
      return None;
    }

    method UpdatePackage(t: nat, capacity: Option<nat>, status: Option<TourStatus>) returns (error: Option<Error>)
      modifies this
      ensures Did(EditTour(old(Tables()), t, capacity, status), old(Tables()), error)
      ensures old(Good(Tables())) ==> Good(Tables())
      // A limit that is accepted is one the tour is within, and no other tour is touched.
      ensures error.None? && capacity.Some? ==> Sold(bookings, t) <= capacity.value && tours[t].capacity == capacity
      ensures |tours| == |old(tours)| && forall u :: 0 <= u < |tours| && u != t ==> tours[u] == old(tours[u])
      ensures error.None? <==> Accepted(old(Tables()), ChangeTour(t, capacity, status))
      // The fields given are written; the others are as they were.
      ensures error.None? ==>
        && tours[t].status == (if status.Some? then status.value else old(tours[t].status))
        && tours[t].capacity == (if capacity.Some? then capacity else old(tours[t].capacity))
        && !tours[t].deleted && bookings == old(bookings)
    {
      AcceptedExactlyWhen(Tables(), ChangeTour(t, capacity, status));
      if capacity == Some(0) {
        return Some(Invalid);
      }
      if !LiveTour(Tables(), t) {
        return Some(NotFound);
      }
      if capacity.Some? {
        var seatsSold := Sold(bookings, t);
        if capacity.value < seatsSold {
          return Some(AlreadySold);
        }
        tours := tours[t := tours[t].(capacity := capacity)];
      }
      if status.Some? {
        tours := tours[t := tours[t].(status := status.value)];
      }
      return None;
    }
  }
}

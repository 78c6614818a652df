/**
 * Tours and their bookings: the travellers on live bookings stay within a tour's
 * capacity, whichever side of the bound a call moves.
 */
module TourSeats {
  import opened Wrappers
  import opened Rows

  datatype Status = Reserved | Confirmed | Completed | Cancelled
  datatype TourStatus = Open | Closed | Finished | CalledOff

  /** A tour without a capacity is sold without a limit. */
  datatype Tour = Tour(capacity: Option<nat>, status: TourStatus, deleted: bool)
  datatype Booking = Booking(tour: nat, travellers: nat, status: Status, deleted: bool) {
    predicate Live() { !deleted && status != Cancelled }
  }

  datatype State = State(tours: seq<Tour>, bookings: seq<Booking>)

  datatype Error = Invalid | NotFound | NotOpen | Full | NotAllowed | AlreadySold | InUse

  type Outcome = Result<State, Error>

  /** `TOUR_BOOKING_TRANSITIONS`. */
  predicate Allowed(from: Status, to: Status) {
    || (from == Reserved && (to == Confirmed || to == Cancelled))
    || (from == Confirmed && (to == Completed || to == Cancelled))
  }

  predicate LiveTour(s: State, t: nat) { t < |s.tours| && !s.tours[t].deleted }
  predicate Exists(s: State, k: nat) { k < |s.bookings| && !s.bookings[k].deleted }

  function SeatsOn(tour: nat): Booking -> int { (b: Booking) => if b.Live() && b.tour == tour then b.travellers else 0 }

  /** A booking for several travellers takes a seat for each of them. */
  function Sold(bookings: seq<Booking>, tour: nat): int { Sum(bookings, SeatsOn(tour)) }

  function AddTour(s: State, capacity: Option<nat>): Outcome {
    if capacity == Some(0) then Err(Invalid) else Ok(s.(tours := s.tours + [Tour(capacity, Open, false)]))
  }

  /** `updatePackage`, as far as it moves the capacity and the status; an absent field is left as it is. */
  function EditTour(s: State, t: nat, capacity: Option<nat>, status: Option<TourStatus>): Outcome {
    if capacity == Some(0) then Err(Invalid)
    else if !LiveTour(s, t) then Err(NotFound)
    else if capacity.Some? && capacity.value < Sold(s.bookings, t) then Err(AlreadySold)
    else
      var tour := s.tours[t];
      Ok(s.(tours := s.tours[t := tour.(capacity := if capacity.Some? then capacity else tour.capacity,
                                        status := status.GetOr(tour.status))]))
  }

  function DropTour(s: State, t: nat): Outcome {
    if !LiveTour(s, t) then Err(NotFound)
    else if exists b :: b in s.bookings && !b.deleted && b.tour == t then Err(InUse)
    else Ok(s.(tours := s.tours[t := s.tours[t].(deleted := true)]))
  }

  function Book(s: State, t: nat, travellers: Option<nat>): Outcome {
    if travellers == Some(0) then Err(Invalid)
    else if !LiveTour(s, t) then Err(NotFound)
    else if s.tours[t].status != Open then Err(NotOpen)
    else if s.tours[t].capacity.Some? && travellers.GetOr(1) > s.tours[t].capacity.value - Sold(s.bookings, t) then Err(Full)
    else Ok(s.(bookings := s.bookings + [Booking(t, travellers.GetOr(1), Reserved, false)]))
  }

  /** `updateBooking`, as far as it moves the travellers: the same seat check, this booking left out. */
  function EditBooking(s: State, k: nat, travellers: Option<nat>): Outcome {
    if travellers == Some(0) then Err(Invalid)
    else if !Exists(s, k) || s.bookings[k].tour >= |s.tours| then Err(NotFound)
    else if travellers.Some? && s.tours[s.bookings[k].tour].capacity.Some?
         && travellers.value > s.tours[s.bookings[k].tour].capacity.value - Sold(Except(s.bookings, k), s.bookings[k].tour)
    then Err(Full)
    else Ok(s.(bookings := s.bookings[k := s.bookings[k].(travellers := travellers.GetOr(s.bookings[k].travellers))]))
  }

  function Move(s: State, k: nat, to: Status): Outcome {
    if !Exists(s, k) then Err(NotFound)
    else if !Allowed(s.bookings[k].status, to) then Err(NotAllowed)
    else Ok(s.(bookings := s.bookings[k := s.bookings[k].(status := to)]))
  }

  function Unbook(s: State, k: nat): Outcome {
    if !Exists(s, k) then Err(NotFound) else Ok(s.(bookings := s.bookings[k := s.bookings[k].(deleted := true)]))
  }

  datatype Op =
    | NewTour(capacity: Option<nat>)
    | ChangeTour(tour: nat, capacity: Option<nat>, open: Option<TourStatus>)
    | RemoveTour(tour: nat)
    | NewBooking(tour: nat, travellers: Option<nat>)
    | ChangeBooking(booking: nat, travellers: Option<nat>)
    | MoveBooking(booking: nat, to: Status)
    | RemoveBooking(booking: nat)

  function Apply(s: State, op: Op): Outcome {
    match op
    case NewTour(capacity) => AddTour(s, capacity)
    case ChangeTour(t, capacity, status) => EditTour(s, t, capacity, status)
    case RemoveTour(t) => DropTour(s, t)
    case NewBooking(t, travellers) => Book(s, t, travellers)
    case ChangeBooking(k, travellers) => EditBooking(s, k, travellers)
    case MoveBooking(k, to) => Move(s, k, to)
    case RemoveBooking(k) => Unbook(s, k)
  }

  function After(s: State, op: Op): State { if Apply(s, op).Ok? then Apply(s, op).value else s }

  function Run(s: State, ops: seq<Op>): State {
    if ops == [] then s else After(Run(s, ops[..|ops| - 1]), ops[|ops| - 1])
  }

  /** What may be sold on a tour at most, if there is a limit at all. */
  predicate Within(tour: Tour, sold: int) { tour.capacity.Some? ==> sold <= tour.capacity.value }

  ghost predicate Good(s: State) {
    && (forall t :: 0 <= t < |s.tours| ==> Within(s.tours[t], Sold(s.bookings, t)))
    && (forall b :: b in s.bookings ==> b.tour < |s.tours|)
  }

  lemma NothingSoldYet(s: State, t: nat)
    requires Good(s) && t >= |s.tours|
    ensures Sold(s.bookings, t) == 0
  {
    forall b | b in s.bookings ensures SeatsOn(t)(b) == 0 {
      assert b.tour < |s.tours|;
    }
    SumZero(s.bookings, SeatsOn(t));
  }

  /** A booking rewritten on the same tour, holding no more seats than it may. */
  lemma RewriteKeepsGood(s: State, k: nat, b: Booking)
    requires Good(s) && k < |s.bookings| && b.tour == s.bookings[k].tour
    requires SeatsOn(b.tour)(b) <= SeatsOn(b.tour)(s.bookings[k])
             || Within(s.tours[b.tour], Sold(Except(s.bookings, k), b.tour) + b.travellers)
    ensures Good(s.(bookings := s.bookings[k := b]))
  {
    forall t | 0 <= t < |s.tours| ensures Within(s.tours[t], Sold(s.bookings[k := b], t)) {
      SumUpdate(s.bookings, k, b, SeatsOn(t));
      SumExcept(s.bookings, k, SeatsOn(t));
      assert Within(s.tours[t], Sold(s.bookings, t));
    }
    assert forall x :: x in s.bookings[k := b] ==> x in s.bookings || x == b;
  }

  lemma BookKeepsGood(s: State, t: nat, travellers: Option<nat>)
    requires Good(s) && Book(s, t, travellers).Ok?
    ensures Good(Book(s, t, travellers).value)
  {
    var b := Booking(t, travellers.GetOr(1), Reserved, false);
    forall u | 0 <= u < |s.tours| ensures Within(s.tours[u], Sold(s.bookings + [b], u)) {
      assert Within(s.tours[u], Sold(s.bookings, u));
    }
  }

  lemma CallKeepsGood(s: State, op: Op)
    requires Good(s)
    ensures Good(After(s, op))
  {
    if Apply(s, op).Ok? {
      match op
      case NewTour(_) => NothingSoldYet(s, |s.tours|);
      case NewBooking(t, travellers) => BookKeepsGood(s, t, travellers);
      case ChangeBooking(k, travellers) =>
        RewriteKeepsGood(s, k, s.bookings[k].(travellers := travellers.GetOr(s.bookings[k].travellers)));
      case MoveBooking(k, to) => RewriteKeepsGood(s, k, s.bookings[k].(status := to));
      case RemoveBooking(k) => RewriteKeepsGood(s, k, s.bookings[k].(deleted := true));
      case _ =>
    }
  }

  /** Over every run of calls, no tour with a limit has more travellers on live bookings than that limit. */
  lemma {:induction false} SeatsNeverOversold(s: State, ops: seq<Op>)
    requires Good(s)
    ensures Good(Run(s, ops))
  {
    if ops != [] {
      SeatsNeverOversold(s, ops[..|ops| - 1]);
      CallKeepsGood(Run(s, ops[..|ops| - 1]), ops[|ops| - 1]);
    }
  }

  /**
   * The checks refuse no more than the bound needs: a booking for a tour on sale is
   * refused as full exactly when taking it would break the bound.
   */
  lemma FullExactlyWhenOversold(s: State, t: nat, travellers: nat)
    requires LiveTour(s, t) && s.tours[t].status == Open && travellers > 0
    ensures Book(s, t, Some(travellers)) == Err(Full) <==>
            !Within(s.tours[t], Sold(s.bookings + [Booking(t, travellers, Reserved, false)], t))
  {
    var b := Booking(t, travellers, Reserved, false);
    assert Sold(s.bookings + [b], t) == Sold(s.bookings, t) + travellers;
  }

  /** Raising or lowering the travellers of a live booking is refused exactly when the bound would break. */
  lemma EditRefusedExactlyWhenOversold(s: State, k: nat, travellers: nat)
    requires Exists(s, k) && s.bookings[k].Live() && s.bookings[k].tour < |s.tours| && travellers > 0
    ensures var t := s.bookings[k].tour;
            EditBooking(s, k, Some(travellers)) == Err(Full) <==>
            !Within(s.tours[t], Sold(s.bookings[k := s.bookings[k].(travellers := travellers)], t))
  {
    var t := s.bookings[k].tour;
    SumUpdate(s.bookings, k, s.bookings[k].(travellers := travellers), SeatsOn(t));
    SumExcept(s.bookings, k, SeatsOn(t));
  }

  /** Lowering a limit, or putting one on an unlimited tour, is refused exactly when the tours would not all stay within theirs. */
  lemma LimitRefusedExactlyWhenOversold(s: State, t: nat, capacity: nat, status: Option<TourStatus>)
    requires Good(s) && LiveTour(s, t) && capacity > 0
    ensures EditTour(s, t, Some(capacity), status) == Err(AlreadySold) <==>
            !Good(s.(tours := s.tours[t := s.tours[t].(capacity := Some(capacity), status := status.GetOr(s.tours[t].status))]))
  {
    var edited := s.tours[t := s.tours[t].(capacity := Some(capacity), status := status.GetOr(s.tours[t].status))];
    if capacity < Sold(s.bookings, t) {
      assert !Within(edited[t], Sold(s.bookings, t));
    } else {
      assert forall u :: 0 <= u < |edited| ==> Within(edited[u], Sold(s.bookings, u));
    }
  }

  /* --------------------------- what one call does ------------------------ */

  /** Seats of a tour sold on its other bookings. */
  function SoldBeside(s: State, k: nat): int
    requires k < |s.bookings|
  {
    Sold(s.bookings, s.bookings[k].tour) - if s.bookings[k].Live() then s.bookings[k].travellers else 0
  }

  /** When a call is accepted, as a condition on the rows. */
  predicate Accepted(s: State, op: Op) {
    match op
    case NewTour(capacity) => capacity != Some(0)
    case ChangeTour(t, capacity, _) =>
      && t < |s.tours| && !s.tours[t].deleted
      && (capacity.Some? ==> capacity.value > 0 && Sold(s.bookings, t) <= capacity.value)
    case RemoveTour(t) =>
      t < |s.tours| && !s.tours[t].deleted && forall b :: b in s.bookings && b.tour == t ==> b.deleted
    case NewBooking(t, travellers) =>
      && t < |s.tours| && !s.tours[t].deleted && s.tours[t].status == Open && travellers != Some(0)
      && (s.tours[t].capacity.Some? ==> Sold(s.bookings, t) + travellers.GetOr(1) <= s.tours[t].capacity.value)
    case ChangeBooking(k, travellers) =>
      && k < |s.bookings| && !s.bookings[k].deleted && s.bookings[k].tour < |s.tours|
      && (travellers.Some? ==> travellers.value > 0 && Within(s.tours[s.bookings[k].tour], SoldBeside(s, k) + travellers.value))
    case MoveBooking(k, to) =>
      && k < |s.bookings| && !s.bookings[k].deleted
      && (s.bookings[k].status, to) in {(Reserved, Confirmed), (Reserved, Cancelled), (Confirmed, Completed), (Confirmed, Cancelled)}
    case RemoveBooking(k) => k < |s.bookings| && !s.bookings[k].deleted
  }

  lemma AcceptedExactlyWhen(s: State, op: Op)
    ensures Apply(s, op).Ok? <==> Accepted(s, op)
  {
    if op.ChangeBooking? && op.booking < |s.bookings| {
      SumExcept(s.bookings, op.booking, SeatsOn(s.bookings[op.booking].tour));
    }
    if op.RemoveTour? {
      assert (exists b :: b in s.bookings && !b.deleted && b.tour == op.tour) <==>
             !(forall b :: b in s.bookings && b.tour == op.tour ==> b.deleted);
    }
  }

  /** An accepted call writes one row, or rewrites the fields it was given of the row it names, and touches nothing else. */
  lemma CallRewrites(s: State, op: Op)
    requires Apply(s, op).Ok?
    ensures var now := Apply(s, op).value;
            match op
            case NewTour(capacity) => now == s.(tours := s.tours + [Tour(capacity, Open, false)])
            case ChangeTour(t, capacity, status) =>
              && |now.tours| == |s.tours| && now == s.(tours := s.tours[t := now.tours[t]]) && !now.tours[t].deleted
              && now.tours[t].capacity == (if capacity.Some? then capacity else s.tours[t].capacity)
              && now.tours[t].status == (if status.Some? then status.value else s.tours[t].status)
            case RemoveTour(t) => now == s.(tours := s.tours[t := s.tours[t].(deleted := true)])
            case NewBooking(t, travellers) =>
              now == s.(bookings := s.bookings + [Booking(t, if travellers.Some? then travellers.value else 1, Reserved, false)])
            case ChangeBooking(k, travellers) =>
              now == if travellers.Some? then s.(bookings := s.bookings[k := s.bookings[k].(travellers := travellers.value)]) else s
            case MoveBooking(k, to) => now == s.(bookings := s.bookings[k := s.bookings[k].(status := to)])
            case RemoveBooking(k) => now == s.(bookings := s.bookings[k := s.bookings[k].(deleted := true)])
  {
    if op.ChangeBooking? {
      assert s.bookings[op.booking := s.bookings[op.booking]] == s.bookings;
    }
  }

  /* ------------------- what one call does to the sums ------------------- */

  /** A booking rewritten in place moves only its own seats. */
  lemma RewriteMoves(bookings: seq<Booking>, k: nat, b: Booking)
    requires k < |bookings|
    ensures forall t :: Sold(bookings[k := b], t) == Sold(bookings, t) - SeatsOn(t)(bookings[k]) + SeatsOn(t)(b)
    ensures forall t :: Sold(Except(bookings, k), t) == Sold(bookings, t) - SeatsOn(t)(bookings[k])
  {
    forall t
      ensures Sold(bookings[k := b], t) == Sold(bookings, t) - SeatsOn(t)(bookings[k]) + SeatsOn(t)(b)
      ensures Sold(Except(bookings, k), t) == Sold(bookings, t) - SeatsOn(t)(bookings[k])
    {
      SumUpdate(bookings, k, b, SeatsOn(t));
      SumExcept(bookings, k, SeatsOn(t));
    }
  }

  /* ------------------------------- views ------------------------------- */

  datatype TourView = TourView(tour: nat, bookingsCount: int, seatsSold: int, seatsLeft: Option<int>)

  function OnTours(tours: seq<nat>): Booking -> bool { (b: Booking) => b.Live() && b.tour in tours }
  function TourOf(): Booking -> nat { (b: Booking) => b.tour }
  function TravellersOf(): Booking -> int { (b: Booking) => b.travellers }
  function One(): Booking -> int { (b: Booking) => 1 }
  function CountOn(tour: nat): Booking -> int { (b: Booking) => if b.Live() && b.tour == tour then 1 else 0 }

  function ViewOf(s: State, t: nat): TourView
    requires t < |s.tours|
  {
    TourView(t, Sum(s.bookings, CountOn(t)), Sold(s.bookings, t),
             if s.tours[t].capacity.None? then None else Some(s.tours[t].capacity.value - Sold(s.bookings, t)))
  }

  /** `attachSeatCounts`: one grouped query for a page of tours gives each its own figures. */
  method AttachSeatCounts(s: State, ids: seq<nat>, seats: seq<(nat, int)>, counts: seq<(nat, int)>) returns (views: seq<TourView>)
    requires forall i :: 0 <= i < |ids| ==> ids[i] < |s.tours|
    requires GroupedBy(seats, Where(s.bookings, OnTours(ids)), TourOf(), TravellersOf())
    requires GroupedBy(counts, Where(s.bookings, OnTours(ids)), TourOf(), One())
    ensures |views| == |ids|
    ensures forall i :: 0 <= i < |ids| ==> views[i] == ViewOf(s, ids[i])
    ensures forall i :: 0 <= i < |ids| ==>
      && views[i].tour == ids[i] && views[i].seatsSold == Sold(s.bookings, ids[i])
      && (if s.tours[ids[i]].capacity.None? then views[i].seatsLeft.None?
          else views[i].seatsLeft == Some(s.tours[ids[i]].capacity.value - views[i].seatsSold))
    ensures Good(s) ==> forall i :: 0 <= i < |ids| && views[i].seatsLeft.Some? ==> views[i].seatsLeft.value >= 0
  {
    forall i | 0 <= i < |ids|
      ensures GroupSum(seats, ids[i]) == Sold(s.bookings, ids[i]) && GroupSum(counts, ids[i]) == Sum(s.bookings, CountOn(ids[i]))
    {
      GroupSumIsSum(seats, Where(s.bookings, OnTours(ids)), TourOf(), TravellersOf(), ids[i]);
      SumWhere(s.bookings, OnTours(ids), OfKey(TourOf(), TravellersOf(), ids[i]), SeatsOn(ids[i]));
      GroupSumIsSum(counts, Where(s.bookings, OnTours(ids)), TourOf(), One(), ids[i]);
      SumWhere(s.bookings, OnTours(ids), OfKey(TourOf(), One(), ids[i]), CountOn(ids[i]));
    }
    views := [];
    for i := 0 to |ids|
      invariant |views| == i
      invariant forall k :: 0 <= k < i ==> views[k] == ViewOf(s, ids[k])
    {
      var t := ids[i];
      var sold, bookings := GroupSum(seats, t), GroupSum(counts, t);
      var left := if s.tours[t].capacity.None? then None else Some(s.tours[t].capacity.value - sold);
      views := views + [TourView(t, bookings, sold, left)];
    }
  }
}

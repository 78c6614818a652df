/**
 * Hajj batches, rooms and pilgrims: live counting keeps every room within its
 * capacity because CANCELLED is final.
 */
module HajjRooms {
  import opened Wrappers
  import opened Rows

  datatype Hotel = Makkah | Madinah
  datatype Status = Reserved | Confirmed | Completed | Cancelled

  datatype Batch = Batch(package: nat, seatCapacity: nat, deleted: bool)
  datatype Room = Room(batch: nat, hotel: Hotel, capacity: nat, deleted: bool)
  datatype Booking = Booking(batch: nat, status: Status, makkahRoom: Option<nat>, madinahRoom: Option<nat>, deleted: bool) {
    predicate Live() { !deleted && status != Cancelled }
    function RoomIn(hotel: Hotel): Option<nat> { if hotel == Makkah then makkahRoom else madinahRoom }
    function WithRoom(hotel: Hotel, room: Option<nat>): Booking {
      if hotel == Makkah then this.(makkahRoom := room) else this.(madinahRoom := room)
    }
  }

  datatype State = State(batches: seq<Batch>, rooms: seq<Room>, bookings: seq<Booking>)

  datatype Error = NotFound | WrongPackage | BatchFull | NotAllowed | WrongHotel | WrongBatch | RoomFull | InUse

  type Outcome = Result<State, Error>

  /** `HAJJ_BOOKING_TRANSITIONS`. */
  predicate Allowed(from: Status, to: Status) {
    || (from == Reserved && (to == Confirmed || to == Cancelled))
    || (from == Confirmed && (to == Completed || to == Cancelled))
  }

  predicate LiveBatch(s: State, b: nat) { b < |s.batches| && !s.batches[b].deleted }
  predicate LiveRoom(s: State, r: nat) { r < |s.rooms| && !s.rooms[r].deleted }
  predicate Exists(s: State, k: nat) { k < |s.bookings| && !s.bookings[k].deleted }

  /* ------------------------------ counting ----------------------------- */

  function OnSeat(batch: nat): Booking -> int { (b: Booking) => if b.Live() && b.batch == batch then 1 else 0 }

  /** A batch has no seat counter: the live bookings on it are what is taken. */
  function Booked(bookings: seq<Booking>, batch: nat): int { Sum(bookings, OnSeat(batch)) }

  function InRoom(hotel: Hotel, room: nat): Booking -> int {
    (b: Booking) => if b.Live() && b.RoomIn(hotel) == Some(room) then 1 else 0
  }

  function Occupants(bookings: seq<Booking>, hotel: Hotel, room: nat): int { Sum(bookings, InRoom(hotel, room)) }

  /** Live pilgrims in a room, whichever column names it. */
  function TrueOccupancy(bookings: seq<Booking>, room: nat): int {
    Occupants(bookings, Makkah, room) + Occupants(bookings, Madinah, room)
  }

  /* -------------------------------- calls ------------------------------ */

  function CreateBatch(s: State, package: nat, seatCapacity: nat): Outcome {
    Ok(s.(batches := s.batches + [Batch(package, seatCapacity, false)]))
  }

  function EditBatch(s: State, batch: nat, seatCapacity: nat): Outcome {
    if !LiveBatch(s, batch) then Err(NotFound)
    else Ok(s.(batches := s.batches[batch := s.batches[batch].(seatCapacity := seatCapacity)]))
  }

  function DeleteBatch(s: State, batch: nat): Outcome {
    if !LiveBatch(s, batch) then Err(NotFound)
    else if exists b :: b in s.bookings && !b.deleted && b.batch == batch then Err(InUse)
    else if exists r :: r in s.rooms && !r.deleted && r.batch == batch then Err(InUse)
    else Ok(s.(batches := s.batches[batch := s.batches[batch].(deleted := true)]))
  }

  function CreateRoom(s: State, batch: nat, hotel: Hotel, capacity: nat): Outcome {
    if !LiveBatch(s, batch) then Err(NotFound) else Ok(s.(rooms := s.rooms + [Room(batch, hotel, capacity, false)]))
  }

  /** Refused while `attachOccupancy` finds somebody in the room. */
  function DeleteRoom(s: State, room: nat): Outcome {
    if !LiveRoom(s, room) then Err(NotFound)
    else if Shown(s.bookings, room) > 0 then Err(InUse)
    else Ok(s.(rooms := s.rooms[room := s.rooms[room].(deleted := true)]))
  }

  /** What `attachOccupancy` shows: the Madinah loop overwrites what the Makkah loop set. */
  function Shown(bookings: seq<Booking>, room: nat): int {
    if Occupants(bookings, Madinah, room) > 0 then Occupants(bookings, Madinah, room) else Occupants(bookings, Makkah, room)
  }

  function CreateBooking(s: State, package: nat, batch: nat): Outcome {
    if !LiveBatch(s, batch) then Err(NotFound)
    else if s.batches[batch].package != package then Err(WrongPackage)
    else if Booked(s.bookings, batch) >= s.batches[batch].seatCapacity then Err(BatchFull)
    else Ok(s.(bookings := s.bookings + [Booking(batch, Reserved, None, None, false)]))
  }

  function ChangeStatus(s: State, k: nat, to: Status): Outcome {
    if !Exists(s, k) then Err(NotFound)
    else if !Allowed(s.bookings[k].status, to) then Err(NotAllowed)
    else Ok(s.(bookings := s.bookings[k := s.bookings[k].(status := to)]))
  }

  function AssignRoom(s: State, k: nat, hotel: Hotel, room: Option<nat>): Outcome {
    if !Exists(s, k) then Err(NotFound)
    else if room.None? then Ok(s.(bookings := s.bookings[k := s.bookings[k].WithRoom(hotel, None)]))
    else if !LiveRoom(s, room.value) then Err(NotFound)
    else if s.rooms[room.value].hotel != hotel then Err(WrongHotel)
    else if s.rooms[room.value].batch != s.bookings[k].batch then Err(WrongBatch)
    else if Occupants(Except(s.bookings, k), hotel, room.value) >= s.rooms[room.value].capacity then Err(RoomFull)
    else Ok(s.(bookings := s.bookings[k := s.bookings[k].WithRoom(hotel, room)]))
  }

  function DeleteBooking(s: State, k: nat): Outcome {
    if !Exists(s, k) then Err(NotFound) else Ok(s.(bookings := s.bookings[k := s.bookings[k].(deleted := true)]))
  }

  datatype Op =
    | AddBatch(package: nat, seats: nat)
    | SetSeats(edited: nat, seats: nat)
    | DropBatch(dropped: nat)
    | AddRoom(roomBatch: nat, hotel: Hotel, capacity: nat)
    | DropRoom(room: nat)
    | Book(package: nat, batch: nat)
    | Move(booking: nat, status: Status)
    | Place(booking: nat, hotel: Hotel, into: Option<nat>)
    | Unbook(booking: nat)

  function Apply(s: State, op: Op): Outcome {
    match op
    case AddBatch(p, seats) => CreateBatch(s, p, seats)
    case SetSeats(b, seats) => EditBatch(s, b, seats)
    case DropBatch(b) => DeleteBatch(s, b)
    case AddRoom(b, hotel, capacity) => CreateRoom(s, b, hotel, capacity)
    case DropRoom(r) => DeleteRoom(s, r)
    case Book(p, b) => CreateBooking(s, p, b)
    case Move(k, status) => ChangeStatus(s, k, status)
    case Place(k, hotel, r) => AssignRoom(s, k, hotel, r)
    case Unbook(k) => DeleteBooking(s, k)
  }

  function After(s: State, op: Op): State { if Apply(s, op).Ok? then Apply(s, op).value else s }

  function Run(s: State, ops: seq<Op>): State {
    if ops == [] then s else After(Run(s, ops[..|ops| - 1]), ops[|ops| - 1])
  }

  /* ----------------------------- invariants ---------------------------- */

  /** A booking's room is in the right hotel and batch; a live booking's room has not been deleted. */
  predicate PlacedRight(rooms: seq<Room>, b: Booking, hotel: Hotel) {
    b.RoomIn(hotel).Some? ==>
      var r := b.RoomIn(hotel).value;
      r < |rooms| && rooms[r].hotel == hotel && rooms[r].batch == b.batch && (b.Live() ==> !rooms[r].deleted)
  }

  ghost predicate AllPlacedRight(s: State) {
    forall b, hotel :: b in s.bookings ==> PlacedRight(s.rooms, b, hotel)
  }

  ghost predicate RoomsFit(s: State) {
    forall r :: 0 <= r < |s.rooms| ==> Occupants(s.bookings, s.rooms[r].hotel, r) <= s.rooms[r].capacity
  }

  ghost predicate Good(s: State) {
    && AllPlacedRight(s) && RoomsFit(s)
    && (forall b :: b in s.bookings ==> b.batch < |s.batches|)
  }

  lemma NobodyInWrongHotel(s: State, hotel: Hotel, r: nat)
    requires AllPlacedRight(s) && (r >= |s.rooms| || s.rooms[r].hotel != hotel)
    ensures Occupants(s.bookings, hotel, r) == 0
  {
    forall b | b in s.bookings ensures InRoom(hotel, r)(b) == 0 {
      assert PlacedRight(s.rooms, b, hotel);
    }
    SumZero(s.bookings, InRoom(hotel, r));
  }

  /** Because no room is named by both columns, what is shown is the true live count. */
  lemma ShownIsTrue(s: State, r: nat)
    requires AllPlacedRight(s)
    ensures Shown(s.bookings, r) == TrueOccupancy(s.bookings, r)
  {
    SumNonNegative(s.bookings, InRoom(Makkah, r));
    SumNonNegative(s.bookings, InRoom(Madinah, r));
    if r < |s.rooms| && s.rooms[r].hotel == Makkah {
      NobodyInWrongHotel(s, Madinah, r);
    } else {
      NobodyInWrongHotel(s, Makkah, r);
    }
  }

  /** A booking rewritten so that no room gains a live occupant. */
  lemma RewriteKeepsRoomsFit(s: State, k: nat, b: Booking)
    requires RoomsFit(s) && k < |s.bookings|
    requires forall r, hotel :: InRoom(hotel, r)(b) <= InRoom(hotel, r)(s.bookings[k])
    ensures RoomsFit(s.(bookings := s.bookings[k := b]))
  {
    forall r | 0 <= r < |s.rooms| ensures Occupants(s.bookings[k := b], s.rooms[r].hotel, r) <= s.rooms[r].capacity {
      SumUpdate(s.bookings, k, b, InRoom(s.rooms[r].hotel, r));
    }
  }

  lemma AssignKeepsRoomsFit(s: State, k: nat, hotel: Hotel, room: nat)
    requires AllPlacedRight(s) && RoomsFit(s) && AssignRoom(s, k, hotel, Some(room)).Ok?
    ensures RoomsFit(AssignRoom(s, k, hotel, Some(room)).value)
  {
    var b := s.bookings[k].WithRoom(hotel, Some(room));
    forall r | 0 <= r < |s.rooms| ensures Occupants(s.bookings[k := b], s.rooms[r].hotel, r) <= s.rooms[r].capacity {
      SumUpdate(s.bookings, k, b, InRoom(s.rooms[r].hotel, r));
      SumExcept(s.bookings, k, InRoom(s.rooms[r].hotel, r));
    }
  }

  lemma StatusKeepsGood(s: State, k: nat, to: Status)
    requires Good(s) && ChangeStatus(s, k, to).Ok?
    ensures Good(ChangeStatus(s, k, to).value)
  {
    var b := s.bookings[k].(status := to);
    assert PlacedRight(s.rooms, s.bookings[k], Makkah) && PlacedRight(s.rooms, s.bookings[k], Madinah);
    forall hotel ensures PlacedRight(s.rooms, b, hotel) {
      assert PlacedRight(s.rooms, s.bookings[k], hotel);
    }
    RewriteKeepsRoomsFit(s, k, b);
  }

  lemma UnbookKeepsGood(s: State, k: nat)
    requires Good(s) && DeleteBooking(s, k).Ok?
    ensures Good(DeleteBooking(s, k).value)
  {
    var b := s.bookings[k].(deleted := true);
    forall hotel ensures PlacedRight(s.rooms, b, hotel) {
      assert PlacedRight(s.rooms, s.bookings[k], hotel);
    }
    RewriteKeepsRoomsFit(s, k, b);
  }

  lemma PlaceKeepsGood(s: State, k: nat, hotel: Hotel, room: Option<nat>)
    requires Good(s) && AssignRoom(s, k, hotel, room).Ok?
    ensures Good(AssignRoom(s, k, hotel, room).value)
  {
    var b := s.bookings[k].WithRoom(hotel, room);
    forall h ensures PlacedRight(s.rooms, b, h) {
      assert PlacedRight(s.rooms, s.bookings[k], h);
    }
    if room.Some? {
      AssignKeepsRoomsFit(s, k, hotel, room.value);
    } else {
      RewriteKeepsRoomsFit(s, k, b);
    }
  }

  lemma AddRoomKeepsGood(s: State, batch: nat, hotel: Hotel, capacity: nat)
    requires Good(s) && CreateRoom(s, batch, hotel, capacity).Ok?
    ensures Good(CreateRoom(s, batch, hotel, capacity).value)
  {
    var s' := CreateRoom(s, batch, hotel, capacity).value;
    NobodyInWrongHotel(s, hotel, |s.rooms|);
    forall b, h | b in s.bookings ensures PlacedRight(s'.rooms, b, h) {
      assert PlacedRight(s.rooms, b, h);
    }
  }

  /** A room shown as empty has no live pilgrim in it. */
  lemma DropRoomKeepsGood(s: State, room: nat)
    requires Good(s) && DeleteRoom(s, room).Ok?
    ensures Good(DeleteRoom(s, room).value)
  {
    var s' := DeleteRoom(s, room).value;
    ShownIsTrue(s, room);
    SumNonNegative(s.bookings, InRoom(Makkah, room));
    SumNonNegative(s.bookings, InRoom(Madinah, room));
    forall b, h | b in s.bookings ensures PlacedRight(s'.rooms, b, h) {
      assert PlacedRight(s.rooms, b, h);
      RowLeSum(s.bookings, b, InRoom(h, room));
      assert InRoom(h, room)(b) == 0;
    }
  }

  lemma CallKeepsGood(s: State, op: Op)
    requires Good(s)
    ensures Good(After(s, op))
  {
    if Apply(s, op).Ok? {
      match op
      case AddRoom(b, hotel, capacity) => AddRoomKeepsGood(s, b, hotel, capacity);
      case DropRoom(r) => DropRoomKeepsGood(s, r);
      case Move(k, status) => StatusKeepsGood(s, k, status);
      case Place(k, hotel, r) => PlaceKeepsGood(s, k, hotel, r);
      case Unbook(k) => UnbookKeepsGood(s, k);
      case _ =>
    }
  }

  /** Over every run of calls, no room holds more live pilgrims than it has beds, and everyone is in the right place. */
  lemma {:induction false} RoomsNeverOverfill(s: State, ops: seq<Op>)
    requires Good(s)
    ensures Good(Run(s, ops))
    ensures forall r :: 0 <= r < |Run(s, ops).rooms| ==> TrueOccupancy(Run(s, ops).bookings, r) <= Run(s, ops).rooms[r].capacity
  {
    if ops != [] {
      RoomsNeverOverfill(s, ops[..|ops| - 1]);
      CallKeepsGood(Run(s, ops[..|ops| - 1]), ops[|ops| - 1]);
    }
    var s' := Run(s, ops);
    forall r | 0 <= r < |s'.rooms| ensures TrueOccupancy(s'.bookings, r) <= s'.rooms[r].capacity {
      NobodyInWrongHotel(s', if s'.rooms[r].hotel == Makkah then Madinah else Makkah, r);
    }
  }

  /* -------------------------------- seats ------------------------------ */

  predicate SeatsFit(s: State, batch: nat) {
    batch < |s.batches| ==> Booked(s.bookings, batch) <= s.batches[batch].seatCapacity
  }

  lemma NewBatchIsEmpty(s: State)
    requires Good(s)
    ensures Booked(s.bookings, |s.batches|) == 0
  {
    forall b | b in s.bookings ensures OnSeat(|s.batches|)(b) == 0 {
      assert b.batch < |s.batches|;
    }
    SumZero(s.bookings, OnSeat(|s.batches|));
  }

  /** A booking rewritten in place never takes a second seat. */
  lemma RewriteKeepsSeats(s: State, k: nat, b: Booking, batch: nat)
    requires SeatsFit(s, batch) && k < |s.bookings| && OnSeat(batch)(b) <= OnSeat(batch)(s.bookings[k])
    ensures SeatsFit(s.(bookings := s.bookings[k := b]), batch)
  {
    SumUpdate(s.bookings, k, b, OnSeat(batch));
  }

  lemma SeatStep(s: State, op: Op, batch: nat)
    requires Good(s) && SeatsFit(s, batch) && !(op.SetSeats? && op.edited == batch)
    ensures SeatsFit(After(s, op), batch)
  {
    if Apply(s, op).Ok? {
      match op
      case AddBatch(_, _) => NewBatchIsEmpty(s);
      case Move(k, status) => RewriteKeepsSeats(s, k, s.bookings[k].(status := status), batch);
      case Place(k, hotel, r) => RewriteKeepsSeats(s, k, s.bookings[k].WithRoom(hotel, r), batch);
      case Unbook(k) => RewriteKeepsSeats(s, k, s.bookings[k].(deleted := true), batch);
      case _ =>
    }
  }

  /** Live bookings stay within a batch's seats over any run that does not edit that batch's capacity. */
  lemma {:induction false} SeatsNeverOversold(s: State, ops: seq<Op>, batch: nat)
    requires Good(s) && SeatsFit(s, batch)
    requires forall op :: op in ops ==> !(op.SetSeats? && op.edited == batch)
    ensures SeatsFit(Run(s, ops), batch)
  {
    if ops != [] {
      var init := ops[..|ops| - 1];
      assert forall op :: op in init ==> op in ops;
      SeatsNeverOversold(s, init, batch);
      RoomsNeverOverfill(s, init);
      SeatStep(Run(s, init), ops[|ops| - 1], batch);
    }
  }

  /** `updateBatch` checks nothing: it breaks the bound exactly when it goes below what is booked. */
  lemma EditOversellsIff(s: State, batch: nat, seats: nat)
    requires LiveBatch(s, batch)
    ensures !SeatsFit(After(s, SetSeats(batch, seats)), batch) <==> seats < Booked(s.bookings, batch)
  {
  }

  /* --------------------- refusals are no stricter ---------------------- */

  /** A batch is full exactly when one more live booking would exceed its seats. */
  lemma BatchFullExactlyWhenOversold(s: State, package: nat, batch: nat)
    requires LiveBatch(s, batch) && s.batches[batch].package == package
    ensures CreateBooking(s, package, batch) == Err(BatchFull) <==>
            Booked(s.bookings + [Booking(batch, Reserved, None, None, false)], batch) > s.batches[batch].seatCapacity
  {
    var b := Booking(batch, Reserved, None, None, false);
    assert OnSeat(batch)(b) == 1;
  }

  /** A room is full for a live pilgrim exactly when moving them in would exceed its beds, wherever they are now. */
  lemma RoomFullExactlyWhenOverfilled(s: State, k: nat, hotel: Hotel, room: nat)
    requires Exists(s, k) && s.bookings[k].Live() && LiveRoom(s, room)
    requires s.rooms[room].hotel == hotel && s.rooms[room].batch == s.bookings[k].batch
    ensures AssignRoom(s, k, hotel, Some(room)) == Err(RoomFull) <==>
            Occupants(s.bookings[k := s.bookings[k].WithRoom(hotel, Some(room))], hotel, room) > s.rooms[room].capacity
  {
    var b := s.bookings[k].WithRoom(hotel, Some(room));
    SumUpdate(s.bookings, k, b, InRoom(hotel, room));
    SumExcept(s.bookings, k, InRoom(hotel, room));
    assert InRoom(hotel, room)(b) == 1;
  }

  /** Cancelling a live booking gives back exactly one seat, and one bed in each room it had. */
  lemma CancellingFrees(s: State, k: nat, hotel: Hotel, room: nat)
    requires Exists(s, k) && s.bookings[k].Live() && ChangeStatus(s, k, Cancelled).Ok?
    ensures var after, b := ChangeStatus(s, k, Cancelled).value.bookings, s.bookings[k];
            && Booked(after, b.batch) == Booked(s.bookings, b.batch) - 1
            && Occupants(after, hotel, room) == Occupants(s.bookings, hotel, room) - (if b.RoomIn(hotel) == Some(room) then 1 else 0)
  {
    var b := s.bookings[k].(status := Cancelled);
    SumUpdate(s.bookings, k, b, OnSeat(b.batch));
    SumUpdate(s.bookings, k, b, InRoom(hotel, room));
  }

  /* --------------------------- what one call does ------------------------ */

  /** Live pilgrims in a room besides this booking's own. */
  function OthersIn(s: State, k: nat, hotel: Hotel, room: nat): int
    requires k < |s.bookings|
  {
    Occupants(s.bookings, hotel, room) - if s.bookings[k].Live() && s.bookings[k].RoomIn(hotel) == Some(room) then 1 else 0
  }

  /** The room is there, in that city, the booking's own batch's, and has a bed beside the others. */
  predicate RoomFits(s: State, k: nat, hotel: Hotel, room: nat)
    requires k < |s.bookings|
  {
    && room < |s.rooms| && !s.rooms[room].deleted && s.rooms[room].hotel == hotel
    && s.rooms[room].batch == s.bookings[k].batch && OthersIn(s, k, hotel, room) < s.rooms[room].capacity
  }

  /** When a call is accepted, as a condition on the rows. */
  predicate Accepted(s: State, op: Op) {
    match op
    case AddBatch(_, _) => true
    case SetSeats(b, _) => b < |s.batches| && !s.batches[b].deleted
    case DropBatch(b) =>
      && b < |s.batches| && !s.batches[b].deleted
      && (forall k :: k in s.bookings && k.batch == b ==> k.deleted) && (forall r :: r in s.rooms && r.batch == b ==> r.deleted)
    case AddRoom(b, _, _) => b < |s.batches| && !s.batches[b].deleted
    case DropRoom(r) =>
      r < |s.rooms| && !s.rooms[r].deleted && Occupants(s.bookings, Makkah, r) <= 0 && Occupants(s.bookings, Madinah, r) <= 0
    case Book(p, b) =>
      b < |s.batches| && !s.batches[b].deleted && s.batches[b].package == p && Booked(s.bookings, b) < s.batches[b].seatCapacity
    case Move(k, to) =>
      && k < |s.bookings| && !s.bookings[k].deleted
      && (s.bookings[k].status, to) in {(Reserved, Confirmed), (Reserved, Cancelled), (Confirmed, Completed), (Confirmed, Cancelled)}
    case Place(k, hotel, into) => k < |s.bookings| && !s.bookings[k].deleted && (into.Some? ==> RoomFits(s, k, hotel, into.value))
    case Unbook(k) => k < |s.bookings| && !s.bookings[k].deleted
  }

  lemma AcceptedExactlyWhen(s: State, op: Op)
    ensures Apply(s, op).Ok? <==> Accepted(s, op)
  {
    if op.Place? && op.booking < |s.bookings| && op.into.Some? {
      SumExcept(s.bookings, op.booking, InRoom(op.hotel, op.into.value));
    }
    if op.DropBatch? && op.dropped < |s.batches| {
      assert (exists b :: b in s.bookings && !b.deleted && b.batch == op.dropped) <==>
             !(forall k :: k in s.bookings && k.batch == op.dropped ==> k.deleted);
      assert (exists r :: r in s.rooms && !r.deleted && r.batch == op.dropped) <==>
             !(forall r :: r in s.rooms && r.batch == op.dropped ==> r.deleted);
    }
  }

  /** The booking sleeps in that room of that city, or in none, and is otherwise as it was. */
  predicate Placed(was: Booking, now: Booking, hotel: Hotel, into: Option<nat>) {
    && (if hotel == Makkah then now.makkahRoom == into && now.madinahRoom == was.madinahRoom
        else now.madinahRoom == into && now.makkahRoom == was.makkahRoom)
    && now.batch == was.batch && now.status == was.status && now.deleted == was.deleted
  }

  /** An accepted call writes one row, or rewrites the row it names as it says, and touches nothing else. */
  lemma CallRewrites(s: State, op: Op)
    requires Apply(s, op).Ok?
    ensures var now := Apply(s, op).value;
            match op
            case AddBatch(p, seats) => now == s.(batches := s.batches + [Batch(p, seats, false)])
            case SetSeats(b, seats) => now == s.(batches := s.batches[b := s.batches[b].(seatCapacity := seats)])
            case DropBatch(b) => now == s.(batches := s.batches[b := s.batches[b].(deleted := true)])
            case AddRoom(b, hotel, beds) => now == s.(rooms := s.rooms + [Room(b, hotel, beds, false)])
            case DropRoom(r) => now == s.(rooms := s.rooms[r := s.rooms[r].(deleted := true)])
            case Book(_, b) => now == s.(bookings := s.bookings + [Booking(b, Reserved, None, None, false)])
            case Move(k, to) => now == s.(bookings := s.bookings[k := s.bookings[k].(status := to)])
            case Place(k, hotel, into) =>
              && |now.bookings| == |s.bookings| && now == s.(bookings := s.bookings[k := now.bookings[k]])
              && Placed(s.bookings[k], now.bookings[k], hotel, into)
            case Unbook(k) => now == s.(bookings := s.bookings[k := s.bookings[k].(deleted := true)])
  {
  }

  /* ------------------- what one call does to the counts ------------------ */

  /** A booking rewritten in place moves only its own seat and beds. */
  lemma RewriteMoves(bookings: seq<Booking>, k: nat, b: Booking)
    requires k < |bookings|
    ensures forall batch :: Booked(bookings[k := b], batch) == Booked(bookings, batch) - OnSeat(batch)(bookings[k]) + OnSeat(batch)(b)
    ensures forall hotel, room ::
      Occupants(bookings[k := b], hotel, room)
      == Occupants(bookings, hotel, room) - InRoom(hotel, room)(bookings[k]) + InRoom(hotel, room)(b)
  {
    forall batch ensures Booked(bookings[k := b], batch) == Booked(bookings, batch) - OnSeat(batch)(bookings[k]) + OnSeat(batch)(b) {
      SumUpdate(bookings, k, b, OnSeat(batch));
    }
    forall hotel, room
      ensures Occupants(bookings[k := b], hotel, room)
           == Occupants(bookings, hotel, room) - InRoom(hotel, room)(bookings[k]) + InRoom(hotel, room)(b)
    {
      SumUpdate(bookings, k, b, InRoom(hotel, room));
    }
  }

  /** A room that takes somebody in is within its beds afterwards. */
  lemma AssignedFits(s: State, k: nat, hotel: Hotel, room: nat)
    requires AssignRoom(s, k, hotel, Some(room)).Ok?
    ensures Occupants(AssignRoom(s, k, hotel, Some(room)).value.bookings, hotel, room) <= s.rooms[room].capacity
  {
    SumUpdate(s.bookings, k, s.bookings[k].WithRoom(hotel, Some(room)), InRoom(hotel, room));
    SumExcept(s.bookings, k, InRoom(hotel, room));
  }

  /* ------------------------------- views ------------------------------- */

  datatype RoomView = RoomView(room: nat, occupancy: int, availableSlots: int)
  datatype BatchView = BatchView(batch: nat, bookedSeats: int, availableSeats: int)

  function Max(a: int, b: int): int { if a >= b then a else b }

  function RoomViewOf(rooms: seq<Room>, bookings: seq<Booking>, room: nat): RoomView
    requires room < |rooms|
  {
    RoomView(room, Shown(bookings, room), Max(rooms[room].capacity - Shown(bookings, room), 0))
  }

  function BatchViewOf(batches: seq<Batch>, bookings: seq<Booking>, batch: nat): BatchView
    requires batch < |batches|
  {
    BatchView(batch, Booked(bookings, batch), Max(batches[batch].seatCapacity - Booked(bookings, batch), 0))
  }

  function IsIn(hotel: Hotel, rooms: seq<nat>): Booking -> bool {
    (b: Booking) => b.Live() && b.RoomIn(hotel).Some? && b.RoomIn(hotel).value in rooms
  }

  function RoomKey(hotel: Hotel): Booking -> nat { (b: Booking) => b.RoomIn(hotel).GetOr(0) }

  function One(): Booking -> int { (b: Booking) => 1 }

  function SeatOf(): Booking -> nat { (b: Booking) => b.batch }

  function OnBatches(batches: seq<nat>): Booking -> bool { (b: Booking) => b.Live() && b.batch in batches }

  /** One column's GROUP BY over the rooms asked about. */
  ghost predicate CountsRooms(groups: seq<(nat, int)>, bookings: seq<Booking>, hotel: Hotel, rooms: seq<nat>) {
    && GroupedBy(groups, Where(bookings, IsIn(hotel, rooms)), RoomKey(hotel), One())
    && (forall g :: g in groups ==> g.1 > 0)
  }

  lemma RoomGroup(groups: seq<(nat, int)>, bookings: seq<Booking>, hotel: Hotel, rooms: seq<nat>, room: nat)
    requires CountsRooms(groups, bookings, hotel, rooms) && room in rooms
    ensures GroupSum(groups, room) == Occupants(bookings, hotel, room)
  {
    GroupSumIsSum(groups, Where(bookings, IsIn(hotel, rooms)), RoomKey(hotel), One(), room);
    SumWhere(bookings, IsIn(hotel, rooms), OfKey(RoomKey(hotel), One(), room), InRoom(hotel, room));
  }

  lemma SeatGroup(groups: seq<(nat, int)>, bookings: seq<Booking>, ids: seq<nat>, batch: nat)
    requires GroupedBy(groups, Where(bookings, OnBatches(ids)), SeatOf(), One()) && batch in ids
    ensures GroupSum(groups, batch) == Booked(bookings, batch)
  {
    GroupSumIsSum(groups, Where(bookings, OnBatches(ids)), SeatOf(), One(), batch);
    SumWhere(bookings, OnBatches(ids), OfKey(SeatOf(), One(), batch), OnSeat(batch));
  }
}

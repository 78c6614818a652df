/** The Hajj services as they run: map-filling loops over grouped counts, and row writes. */
module HajjDesk {
  import opened Wrappers
  import opened Rows
  import opened HajjRooms

  class Desk {
    var batches: seq<Batch>
    var rooms: seq<Room>
    var bookings: seq<Booking>

    function Tables(): State reads this { State(batches, rooms, bookings) }

    /** The call ended as the state change says; a refused call changed nothing. */
    ghost predicate Did(outcome: Outcome, before: State, error: Option<Error>) reads this {
      match outcome
      case Ok(after) => error.None? && Tables() == after
      case Err(e) => error == Some(e) && Tables() == before
    }

    constructor ()
      ensures Good(Tables()) && Tables() == State([], [], [])
    {
      batches, rooms, bookings := [], [], [];
    }

    /**
     * `attachOccupancy`: two loops fill one map, the second overwriting the first.
     * That is the true live count as long as everyone is placed in the right hotel.
     */
    method AttachOccupancy(ids: seq<nat>, makkah: seq<(nat, int)>, madinah: seq<(nat, int)>) returns (views: seq<RoomView>)
      requires forall i :: 0 <= i < |ids| ==> ids[i] < |rooms|
      requires CountsRooms(makkah, bookings, Makkah, ids) && CountsRooms(madinah, bookings, Madinah, ids)
      ensures |views| == |ids|
      ensures forall i :: 0 <= i < |ids| ==> views[i] == RoomViewOf(rooms, bookings, ids[i])
      // What is free is the beds that are not taken, and never less than none.
      ensures forall i :: 0 <= i < |ids| ==>
        && views[i].room == ids[i]
        && views[i].availableSlots
           == if rooms[ids[i]].capacity > views[i].occupancy then rooms[ids[i]].capacity - views[i].occupancy else 0
      ensures AllPlacedRight(Tables()) ==>
        forall i :: 0 <= i < |ids| ==> views[i].occupancy == TrueOccupancy(bookings, ids[i])
    {
      var counts := CountRooms(makkah, madinah);
      forall i | 0 <= i < |ids| ensures Get(counts, ids[i], 0) == Shown(bookings, ids[i]) {
        RoomGroup(makkah, bookings, Makkah, ids, ids[i]);
        RoomGroup(madinah, bookings, Madinah, ids, ids[i]);
      }
      views := ShowRooms(ids, counts);
      if AllPlacedRight(Tables()) {
        forall i | 0 <= i < |ids| ensures Shown(bookings, ids[i]) == TrueOccupancy(bookings, ids[i]) {
          ShownIsTrue(Tables(), ids[i]);
        }
      }
    }

    method ShowRooms(ids: seq<nat>, counts: map<nat, int>) returns (views: seq<RoomView>)
      requires forall i :: 0 <= i < |ids| ==> ids[i] < |rooms|
      requires forall i :: 0 <= i < |ids| ==> Get(counts, ids[i], 0) == Shown(bookings, ids[i])
      ensures |views| == |ids|
      ensures forall i :: 0 <= i < |ids| ==> views[i] == RoomViewOf(rooms, bookings, ids[i])
    {
      views := [];
      for i := 0 to |ids|
        invariant |views| == i
        invariant forall k :: 0 <= k < i ==> views[k] == RoomViewOf(rooms, bookings, ids[k])
      {
        var occupancy := Get(counts, ids[i], 0);
        views := views + [RoomView(ids[i], occupancy, Max(rooms[ids[i]].capacity - occupancy, 0))];
      }
    }

    static method CountRooms(makkah: seq<(nat, int)>, madinah: seq<(nat, int)>) returns (counts: map<nat, int>)
      requires forall g :: g in makkah ==> g.1 > 0
      requires forall g :: g in madinah ==> g.1 > 0
      ensures forall k ::
        Get(counts, k, 0) == if GroupSum(madinah, k) > 0 then GroupSum(madinah, k) else GroupSum(makkah, k)
    {
      counts := map[];
      for i := 0 to |makkah|
        invariant forall k :: Get(counts, k, 0) == GroupSum(makkah[..i], k)
      {
        assert makkah[..i + 1][..i] == makkah[..i];
        counts := counts[makkah[i].0 := makkah[i].1];
      }
      assert makkah[..|makkah|] == makkah;
      for i := 0 to |madinah|
        invariant forall k ::
          Get(counts, k, 0) == if GroupSum(madinah[..i], k) > 0 then GroupSum(madinah[..i], k) else GroupSum(makkah, k)
      {
        assert madinah[..i + 1][..i] == madinah[..i];
        assert madinah[i] in madinah;
        counts := counts[madinah[i].0 := madinah[i].1];
      }
      assert madinah[..|madinah|] == madinah;
    }

    /** `attachSeatCounts`. */
    method AttachSeatCounts(ids: seq<nat>, groups: seq<(nat, int)>) returns (views: seq<BatchView>)
      requires forall i :: 0 <= i < |ids| ==> ids[i] < |batches|
      requires GroupedBy(groups, Where(bookings, OnBatches(ids)), SeatOf(), One())
      ensures |views| == |ids|
      ensures forall i :: 0 <= i < |ids| ==> views[i] == BatchViewOf(batches, bookings, ids[i])
      ensures forall i :: 0 <= i < |ids| ==>
        && views[i].batch == ids[i] && views[i].bookedSeats == Booked(bookings, ids[i])
        && views[i].availableSeats
           == if batches[ids[i]].seatCapacity > views[i].bookedSeats then batches[ids[i]].seatCapacity - views[i].bookedSeats else 0
    {
      forall i | 0 <= i < |ids| ensures GroupSum(groups, ids[i]) == Booked(bookings, ids[i]) {
        SeatGroup(groups, bookings, ids, ids[i]);
      }
      views := [];
      for i := 0 to |ids|
        invariant |views| == i
        invariant forall k :: 0 <= k < i ==> views[k] == BatchViewOf(batches, bookings, ids[k])
      {
        var booked := GroupSum(groups, ids[i]);
        views := views + [BatchView(ids[i], booked, Max(batches[ids[i]].seatCapacity - booked, 0))];
      }
    }

    method CreateBooking(package: nat, batch: nat) returns (error: Option<Error>)
      modifies this
      ensures Did(HajjRooms.CreateBooking(old(Tables()), package, batch), old(Tables()), error)
      ensures old(Good(Tables())) ==> Good(Tables())
      ensures error.None? ==> Booked(bookings, batch) <= batches[batch].seatCapacity
      ensures error.None? ==> forall b: nat :: Booked(bookings, b) == old(Booked(bookings, b)) + if b == batch then 1 else 0
      ensures error.None? <==> Accepted(old(Tables()), Book(package, batch))
      ensures error.None? ==> bookings == old(bookings) + [Booking(batch, Reserved, None, None, false)]
    {
      AcceptedExactlyWhen(Tables(), Book(package, batch));
      if !LiveBatch(Tables(), batch) {
        return Some(NotFound);
      }
      if batches[batch].package != package {
        return Some(WrongPackage);
      }
      var booked := Booked(bookings, batch);
      if booked >= batches[batch].seatCapacity {
        return Some(BatchFull);
      }
      bookings := bookings + [Booking(batch, Reserved, None, None, false)];
      return None;
    }

    method ChangeBookingStatus(k: nat, to: Status) returns (error: Option<Error>)
      modifies this
      ensures Did(ChangeStatus(old(Tables()), k, to), old(Tables()), error)
      ensures old(Good(Tables())) ==> Good(Tables())
      // A cancellation gives its seat and beds back at once, and nothing else moves any.
      ensures error.None? ==> forall b: nat ::
        Booked(bookings, b) == old(Booked(bookings, b)) - if to == Cancelled && b == bookings[k].batch then 1 else 0
      ensures error.None? ==> forall hotel, r: nat ::
        Occupants(bookings, hotel, r)
        == old(Occupants(bookings, hotel, r)) - if to == Cancelled && bookings[k].RoomIn(hotel) == Some(r) then 1 else 0
      ensures error.None? <==> Accepted(old(Tables()), Move(k, to))
      ensures error.None? ==> bookings == old(bookings)[k := old(bookings[k]).(status := to)]
    {
      AcceptedExactlyWhen(Tables(), Move(k, to));
      if !Exists(Tables(), k) {
        return Some(NotFound);
      }
      if !Allowed(bookings[k].status, to) {
        return Some(NotAllowed);
      }
      RewriteMoves(bookings, k, bookings[k].(status := to));
      if Good(Tables()) { StatusKeepsGood(Tables(), k, to); }
      bookings := bookings[k := bookings[k].(status := to)];
      return None;
    }

    method AssignRoom(k: nat, hotel: Hotel, roomId: Option<nat>) returns (error: Option<Error>)
      modifies this
      ensures Did(HajjRooms.AssignRoom(old(Tables()), k, hotel, roomId), old(Tables()), error)
      ensures old(Good(Tables())) ==> Good(Tables())
      ensures error.None? && roomId.Some? ==> Occupants(bookings, hotel, roomId.value) <= rooms[roomId.value].capacity
      // Only the beds of this column move: no seat does, and nobody leaves or enters the other city.
      ensures forall b: nat :: Booked(bookings, b) == old(Booked(bookings, b))
      ensures forall other, r: nat :: other != hotel ==> Occupants(bookings, other, r) == old(Occupants(bookings, other, r))
      // The pilgrim is in the room asked for, or in none, and is counted there and no longer where they were.
      ensures error.None? <==> Accepted(old(Tables()), Place(k, hotel, roomId))
      ensures error.None? ==>
        && |bookings| == |old(bookings)| && (forall j :: 0 <= j < |bookings| && j != k ==> bookings[j] == old(bookings[j]))
        && bookings[k].RoomIn(hotel) == roomId && Placed(old(bookings[k]), bookings[k], hotel, roomId)
      ensures error.None? ==> forall r: nat ::
        Occupants(bookings, hotel, r)
        == old(Occupants(bookings, hotel, r)) + (if bookings[k].Live() && roomId == Some(r) then 1 else 0)
           - (if old(bookings[k]).Live() && old(bookings[k]).RoomIn(hotel) == Some(r) then 1 else 0)
    {
      AcceptedExactlyWhen(Tables(), Place(k, hotel, roomId));
      if !Exists(Tables(), k) {
        return Some(NotFound);
      }
      RewriteMoves(bookings, k, bookings[k].WithRoom(hotel, roomId));
      if Good(Tables()) && HajjRooms.AssignRoom(Tables(), k, hotel, roomId).Ok? { PlaceKeepsGood(Tables(), k, hotel, roomId); }
      if roomId.None? {
        bookings := bookings[k := bookings[k].WithRoom(hotel, None)];
        return None;
      }
      var room := roomId.value;
      if !LiveRoom(Tables(), room) {
        return Some(NotFound);
      }
      if rooms[room].hotel != hotel {
        return Some(WrongHotel);
      }
      if rooms[room].batch != bookings[k].batch {
        return Some(WrongBatch);
      }
      var occupants := Occupants(Except(bookings, k), hotel, room);
      if occupants >= rooms[room].capacity {
        return Some(RoomFull);
      }
      AssignedFits(Tables(), k, hotel, room);
      bookings := bookings[k := bookings[k].WithRoom(hotel, Some(room))];
      return None;
    }

    method DeleteBooking(k: nat) returns (error: Option<Error>)
      modifies this
      ensures Did(HajjRooms.DeleteBooking(old(Tables()), k), old(Tables()), error)
      ensures old(Good(Tables())) ==> Good(Tables())
      // A live booking's seat and beds come back; a cancelled one had none left to give.
      ensures error.None? ==> forall b: nat ::
        Booked(bookings, b) == old(Booked(bookings, b)) - if old(bookings[k]).Live() && b == bookings[k].batch then 1 else 0
      ensures error.None? ==> forall hotel, r: nat ::
        Occupants(bookings, hotel, r)
        == old(Occupants(bookings, hotel, r)) - if old(bookings[k]).Live() && bookings[k].RoomIn(hotel) == Some(r) then 1 else 0
      ensures error.None? <==> k < |old(bookings)| && !old(bookings[k]).deleted
      ensures error.None? ==> bookings == old(bookings)[k := old(bookings[k]).(deleted := true)]
    {
      if !Exists(Tables(), k) {
        return Some(NotFound);
      }
      RewriteMoves(bookings, k, bookings[k].(deleted := true));
      if Good(Tables()) { UnbookKeepsGood(Tables(), k); }
      bookings := bookings[k := bookings[k].(deleted := true)];
      return None;
    }

    method DeleteRoom(room: nat, makkah: seq<(nat, int)>, madinah: seq<(nat, int)>) returns (error: Option<Error>)
      requires CountsRooms(makkah, bookings, Makkah, [room]) && CountsRooms(madinah, bookings, Madinah, [room])
      modifies this
      ensures Did(HajjRooms.DeleteRoom(old(Tables()), room), old(Tables()), error)
      ensures old(Good(Tables())) ==> Good(Tables()) && (error.None? ==> TrueOccupancy(bookings, room) == 0)
      ensures error.None? <==> Accepted(old(Tables()), DropRoom(room))
      ensures error.None? ==> rooms == old(rooms)[room := old(rooms[room]).(deleted := true)]
    {
      AcceptedExactlyWhen(Tables(), DropRoom(room));
      if !LiveRoom(Tables(), room) {
        return Some(NotFound);
      }
      var views := AttachOccupancy([room], makkah, madinah);
      if views[0].occupancy > 0 {
        return Some(InUse);
      }
      if Good(Tables()) {
        ShownIsTrue(Tables(), room);
        SumNonNegative(bookings, InRoom(Makkah, room));
        SumNonNegative(bookings, InRoom(Madinah, room));
        DropRoomKeepsGood(Tables(), room);
      }
      rooms := rooms[room := rooms[room].(deleted := true)];
      return None;
    }
  }
}

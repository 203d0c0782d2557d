/** The monolith's room queries: the three date-availability selections, whose NOT IN
    subquery is the booking overlap test, and `countByStatus`. */
module MonolithRoomRepository {
  import opened Wrappers
  import opened Bookings
  import opened BookingRules
  import opened Rooms
  import R = MonolithBookingRepository

  /** The subquery: ids of rooms with a PENDING, CONFIRMED or CHECKED_IN booking
      overlapping the dates, inclusively. */
  function BookedRoomIds(bookings: R.Table, checkIn: int, checkOut: int): set<nat>
  {
    set j | j in bookings && R.Holds(bookings[j].status)
                          && Overlaps(bookings[j].checkIn, bookings[j].checkOut, checkIn, checkOut)
      :: bookings[j].roomId
  }

  /** `findAvailableRoomsForDates`. */
  function FindAvailableRoomsForDates(rooms: RoomTable, bookings: R.Table, checkIn: int, checkOut: int): set<Room>
  {
    set id | id in rooms && rooms[id].status == Available && id !in BookedRoomIds(bookings, checkIn, checkOut)
      :: rooms[id]
  }

  /** `findAvailableRoomsForHotelAndDates`. */
  function FindAvailableRoomsForHotelAndDates(rooms: RoomTable, bookings: R.Table, hotelId: nat,
                                              checkIn: int, checkOut: int): set<Room>
  {
    set id | id in rooms && rooms[id].hotelId == hotelId && rooms[id].status == Available
             && id !in BookedRoomIds(bookings, checkIn, checkOut)
      :: rooms[id]
  }

  /** `findAvailableRoomsByTypeForDates`. */
  function FindAvailableRoomsByTypeForDates(rooms: RoomTable, bookings: R.Table, roomType: RoomType,
                                            checkIn: int, checkOut: int): set<Room>
  {
    set id | id in rooms && rooms[id].status == Available && rooms[id].roomType == roomType
             && id !in BookedRoomIds(bookings, checkIn, checkOut)
      :: rooms[id]
  }

  /** The rooms the date query returns are exactly the AVAILABLE rooms for which the
      booking repository's `isRoomAvailable` holds on the same dates. */
  lemma AvailableRoomsAreBookable(rooms: RoomTable, bookings: R.Table, checkIn: int, checkOut: int)
    requires Rooms.Keyed(rooms)
    ensures forall x :: x in FindAvailableRoomsForDates(rooms, bookings, checkIn, checkOut) <==>
              (x in rooms.Values && x.status == Available && R.IsRoomAvailable(bookings, x.id, checkIn, checkOut))
  {
    forall x
      ensures x in FindAvailableRoomsForDates(rooms, bookings, checkIn, checkOut) <==>
              (x in rooms.Values && x.status == Available && R.IsRoomAvailable(bookings, x.id, checkIn, checkOut))
    {
      if x in rooms.Values && x.status == Available && R.IsRoomAvailable(bookings, x.id, checkIn, checkOut) {
        var id :| id in rooms && rooms[id] == x;
        forall j | j in bookings && R.Holds(bookings[j].status)
                   && Overlaps(bookings[j].checkIn, bookings[j].checkOut, checkIn, checkOut)
          ensures bookings[j].roomId != id
        {
          assert !R.Blocks(bookings[j], x.id, checkIn, checkOut);
        }
        assert id !in BookedRoomIds(bookings, checkIn, checkOut);
      }
      if x in FindAvailableRoomsForDates(rooms, bookings, checkIn, checkOut) {
        var id :| id in rooms && rooms[id] == x && x.status == Available
                  && id !in BookedRoomIds(bookings, checkIn, checkOut);
        forall j | j in bookings
          ensures !R.Blocks(bookings[j], x.id, checkIn, checkOut)
        {
          if R.Holds(bookings[j].status) && Overlaps(bookings[j].checkIn, bookings[j].checkOut, checkIn, checkOut) {
            assert bookings[j].roomId in BookedRoomIds(bookings, checkIn, checkOut);
          }
        }
      }
    }
  }

  /** The hotel and type variants are the date query narrowed to one hotel or one type. */
  lemma VariantsNarrowTheDateQuery(rooms: RoomTable, bookings: R.Table, hotelId: nat, roomType: RoomType,
                                   checkIn: int, checkOut: int)
    ensures FindAvailableRoomsForHotelAndDates(rooms, bookings, hotelId, checkIn, checkOut)
            == set x | x in FindAvailableRoomsForDates(rooms, bookings, checkIn, checkOut) && x.hotelId == hotelId
    ensures FindAvailableRoomsByTypeForDates(rooms, bookings, roomType, checkIn, checkOut)
            == set x | x in FindAvailableRoomsForDates(rooms, bookings, checkIn, checkOut) && x.roomType == roomType
  {
  }

  /** The ids of the rooms whose status is `s`. */
  function IdsWithStatus(rooms: RoomTable, s: RoomStatus): set<nat>
  {
    set id | id in rooms && rooms[id].status == s
  }

  /** `countByStatus`. */
  function CountByStatus(rooms: RoomTable, s: RoomStatus): nat
  {
    |IdsWithStatus(rooms, s)|
  }

  /** The ids of the rooms whose status is one of `ss`. */
  function IdsWithStatusIn(rooms: RoomTable, ss: seq<RoomStatus>): set<nat>
  {
    set id | id in rooms && rooms[id].status in ss
  }

  function SumOfCounts(rooms: RoomTable, ss: seq<RoomStatus>): nat
    decreases |ss|
  {
    if |ss| == 0 then 0 else CountByStatus(rooms, ss[0]) + SumOfCounts(rooms, ss[1..])
  }

  /** Counting distinct statuses one by one counts the rooms with any of them. */
  lemma {:induction false} SumOfCountsIsCount(rooms: RoomTable, ss: seq<RoomStatus>)
    requires forall i, j :: 0 <= i < j < |ss| ==> ss[i] != ss[j]
    ensures SumOfCounts(rooms, ss) == |IdsWithStatusIn(rooms, ss)|
    decreases |ss|
  {
    if |ss| == 0 {
      assert IdsWithStatusIn(rooms, ss) == {};
    } else {
      SumOfCountsIsCount(rooms, ss[1..]);
      var head := IdsWithStatus(rooms, ss[0]);
      var tail := IdsWithStatusIn(rooms, ss[1..]);
      assert IdsWithStatusIn(rooms, ss) == head + tail by {
        forall id | id in rooms
          ensures rooms[id].status in ss <==> rooms[id].status == ss[0] || rooms[id].status in ss[1..]
        {
          assert ss == [ss[0]] + ss[1..];
        }
      }
      assert head * tail == {} by {
        forall id | id in head
          ensures id !in tail
        {
          assert rooms[id].status == ss[0] && ss[0] !in ss[1..];
        }
      }
    }
  }

  /** The five counts of the statistics add up to the number of rooms. */
  lemma CountsAddUpToRooms(rooms: RoomTable)
    ensures SumOfCounts(rooms, RoomStatuses) == |rooms|
  {
    EnumsAreComplete(Single, Available);
    SumOfCountsIsCount(rooms, RoomStatuses);
    assert IdsWithStatusIn(rooms, RoomStatuses) == rooms.Keys by {
      forall id | id in rooms
        ensures id in IdsWithStatusIn(rooms, RoomStatuses)
      {
        EnumsAreComplete(Single, rooms[id].status);
      }
    }
  }
}

/** The monolith's `RoomService`: room creation, update and status change on the
    `Database`, the availability search and the per-status statistics. */
module MonolithRoomService {
  import opened Wrappers
  import opened Rooms
  import opened RoomRequests
  import opened MonolithStore
  import opened MonolithRoomRepository
  import R = MonolithBookingRepository
  import Hotels

  /** `createRoom`: the hotel must exist and the number must be free in it; the status
      defaults to AVAILABLE. */
  method CreateRoom(db: Database, req: CreateRequest) returns (r: Result<Room>)
    requires db.Valid() && req.HasRequiredFields()
    modifies db
    ensures db.Valid()
    ensures req.hotelId.value !in old(db.hotels) ==> r == Err(NotFound(HotelEntity))
    ensures req.hotelId.value in old(db.hotels)
            && ExistsByRoomNumberAndHotelId(old(db.rooms), req.roomNumber.value, req.hotelId.value)
            ==> r == Err(AlreadyExists(DuplicateRoomNumber))
    ensures r.Ok? <==> req.hotelId.value in old(db.hotels)
                       && !ExistsByRoomNumberAndHotelId(old(db.rooms), req.roomNumber.value, req.hotelId.value)
    ensures r.Ok? ==> r.value == req.NewRoom(old(db.nextId)) && r.value.id !in old(db.rooms)
                      && db.rooms == old(db.rooms)[r.value.id := r.value]
    ensures r.Ok? && req.status.None? ==> r.value.status == Available
    ensures r.Err? ==> unchanged(db)
    ensures db.hotels == old(db.hotels) && db.bookings == old(db.bookings) && db.users == old(db.users)
  {
    if req.hotelId.value !in db.hotels {
      return Err(NotFound(HotelEntity));
    }
    if ExistsByRoomNumberAndHotelId(db.rooms, req.roomNumber.value, req.hotelId.value) {
      return Err(AlreadyExists(DuplicateRoomNumber));
    }
    var id := db.Allocate();
    var room := req.NewRoom(id);
    InsertFreeNumberKeepsUnique(db.rooms, room);
    db.rooms := db.rooms[id := room];
    r := Ok(room);
  }

  /** `updateRoom`: renaming to a number another room of the same hotel uses is refused;
      keeping the room's own number is not a conflict. Then only the given fields change. */
  method UpdateRoom(db: Database, id: nat, c: RoomChanges) returns (r: Result<Room>)
    requires db.Valid()
    modifies db
    ensures db.Valid()
    ensures id !in old(db.rooms) <==> r == Err(NotFound(RoomEntity))
    ensures id in old(db.rooms) ==>
              var room := old(db.rooms)[id];
              (r == Err(AlreadyExists(DuplicateRoomNumber)) <==>
                 c.roomNumber.Some? && c.roomNumber.value != room.roomNumber
                 && ExistsByRoomNumberAndHotelId(old(db.rooms), c.roomNumber.value, room.hotelId))
    ensures r.Ok? <==> id in old(db.rooms)
                       && !(c.roomNumber.Some? && c.roomNumber.value != old(db.rooms)[id].roomNumber
                            && ExistsByRoomNumberAndHotelId(old(db.rooms), c.roomNumber.value, old(db.rooms)[id].hotelId))
    ensures r.Ok? ==> r.value == ApplyChanges(old(db.rooms)[id], c) && db.rooms == old(db.rooms)[id := r.value]
    ensures r.Err? ==> unchanged(db)
    ensures db.hotels == old(db.hotels) && db.bookings == old(db.bookings) && db.users == old(db.users)
  {
    if id !in db.rooms {
      return Err(NotFound(RoomEntity));
    }
    var room := db.rooms[id];
    if c.roomNumber.Some? && c.roomNumber.value != room.roomNumber
       && ExistsByRoomNumberAndHotelId(db.rooms, c.roomNumber.value, room.hotelId) {
      return Err(AlreadyExists(DuplicateRoomNumber));
    }
    var updated := ApplyChanges(room, c);
    RewriteKeepsUnique(db.rooms, id, updated);
    db.rooms := db.rooms[id := updated];
    r := Ok(updated);
  }

  /** `updateRoomStatus`: only the status of that one room changes. */
  method UpdateRoomStatus(db: Database, id: nat, status: RoomStatus) returns (r: Result<Room>)
    requires db.Valid()
    modifies db
    ensures db.Valid()
    ensures id !in old(db.rooms) <==> r == Err(NotFound(RoomEntity))
    ensures r.Ok? <==> id in old(db.rooms)
    ensures r.Ok? ==> r.value == old(db.rooms)[id].(status := status) && db.rooms == old(db.rooms)[id := r.value]
    ensures r.Err? ==> unchanged(db)
    ensures db.hotels == old(db.hotels) && db.bookings == old(db.bookings) && db.users == old(db.users)
  {
    if id !in db.rooms {
      return Err(NotFound(RoomEntity));
    }
    var updated := db.rooms[id].(status := status);
    RewriteKeepsUnique(db.rooms, id, updated);
    db.rooms := db.rooms[id := updated];
    r := Ok(updated);
  }

  /** The three stream filters of the search; an absent bound is no filter, and both
      price bounds are inclusive. */
  predicate PassesFilters(x: Room, req: SearchRequest)
  {
    && (req.minOccupancy.Some? ==> x.maxOccupancy >= req.minOccupancy.value)
    && (req.minPrice.Some? ==> x.price >= req.minPrice.value)
    && (req.maxPrice.Some? ==> x.price <= req.maxPrice.value)
  }

  /** Which query the search starts from: with a hotel id, that hotel's rooms (the room
      type is then not used); otherwise, with a type, rooms of that type. */
  predicate InScope(x: Room, req: SearchRequest)
  {
    && (req.hotelId.Some? ==> x.hotelId == req.hotelId.value)
    && (req.hotelId.None? && req.roomType.Some? ==> x.roomType == req.roomType.value)
  }

  /** `searchAvailableRooms`. */
  function SearchAvailableRooms(rooms: RoomTable, hotels: Hotels.HotelTable, bookings: R.Table,
                                req: SearchRequest, today: int): (r: Result<set<Room>>)
    requires req.checkIn.Some? && req.checkOut.Some?
    ensures r == Err(Business(CheckInAfterCheckOut)) <==> req.checkIn.value > req.checkOut.value
    ensures r == Err(Business(PastCheckIn)) <==> req.checkIn.value <= req.checkOut.value && req.checkIn.value < today
    ensures r.Ok? <==> today <= req.checkIn.value <= req.checkOut.value
                       && (req.hotelId.Some? ==> req.hotelId.value in hotels)
    ensures r.Err? ==> r.failure in {Business(CheckInAfterCheckOut), Business(PastCheckIn), NotFound(HotelEntity)}
    ensures r.Ok? ==> forall x :: x in r.value <==>
                        (x in FindAvailableRoomsForDates(rooms, bookings, req.checkIn.value, req.checkOut.value)
                         && InScope(x, req) && PassesFilters(x, req))
  {
    var checkIn, checkOut := req.checkIn.value, req.checkOut.value;
    if checkIn > checkOut then Err(Business(CheckInAfterCheckOut))
    else if checkIn < today then Err(Business(PastCheckIn))
    else if req.hotelId.Some? && req.hotelId.value !in hotels then Err(NotFound(HotelEntity))
    else
      var found :=
        if req.hotelId.Some? then FindAvailableRoomsForHotelAndDates(rooms, bookings, req.hotelId.value, checkIn, checkOut)
        else if req.roomType.Some? then FindAvailableRoomsByTypeForDates(rooms, bookings, req.roomType.value, checkIn, checkOut)
        else FindAvailableRoomsForDates(rooms, bookings, checkIn, checkOut);
      VariantsNarrowTheDateQuery(rooms, bookings, req.hotelId.GetOr(0), req.roomType.GetOr(Single), checkIn, checkOut);
      Ok(set x | x in found && PassesFilters(x, req))
  }

  /** Every room the search returns is one the booking check would accept for the same
      dates, and fits the request's price and occupancy bounds. */
  lemma SearchResultsAreBookable(rooms: RoomTable, hotels: Hotels.HotelTable, bookings: R.Table,
                                 req: SearchRequest, today: int, x: Room)
    requires Rooms.Keyed(rooms) && req.checkIn.Some? && req.checkOut.Some?
    requires SearchAvailableRooms(rooms, hotels, bookings, req, today).Ok?
    requires x in SearchAvailableRooms(rooms, hotels, bookings, req, today).value
    ensures x in rooms.Values && x.status == Available
    ensures R.IsRoomAvailable(bookings, x.id, req.checkIn.value, req.checkOut.value)
    ensures req.minPrice.Some? ==> x.price >= req.minPrice.value
    ensures req.maxPrice.Some? ==> x.price <= req.maxPrice.value
  {
    AvailableRoomsAreBookable(rooms, bookings, req.checkIn.value, req.checkOut.value);
  }

  /** With a hotel id the room type of the request makes no difference. */
  lemma HotelSearchIgnoresRoomType(rooms: RoomTable, hotels: Hotels.HotelTable, bookings: R.Table,
                                   req: SearchRequest, today: int, t: Option<RoomType>)
    requires req.checkIn.Some? && req.checkOut.Some? && req.hotelId.Some?
    ensures SearchAvailableRooms(rooms, hotels, bookings, req, today)
            == SearchAvailableRooms(rooms, hotels, bookings, req.(roomType := t), today)
  {
    var a := SearchAvailableRooms(rooms, hotels, bookings, req, today);
    var b := SearchAvailableRooms(rooms, hotels, bookings, req.(roomType := t), today);
    if a.Ok? {
      assert b.Ok?;
      forall x
        ensures x in a.value <==> x in b.value
      {
        assert InScope(x, req) == InScope(x, req.(roomType := t));
      }
      assert a.value == b.value;
    }
  }

  /** `getRoomStatisticsByStatus`: one entry per status. */
  function RoomStatisticsByStatus(rooms: RoomTable): (m: map<RoomStatus, nat>)
    ensures forall s :: s in m && m[s] == |IdsWithStatus(rooms, s)|
  {
    assert forall s :: s in RoomStatuses by {
      forall s: RoomStatus
        ensures s in RoomStatuses
      {
        EnumsAreComplete(Single, s);
      }
    }
    map s | s in RoomStatuses :: CountByStatus(rooms, s)
  }

  /** The statistics account for every room exactly once. */
  lemma StatisticsCoverEveryRoom(rooms: RoomTable)
    ensures var m := RoomStatisticsByStatus(rooms);
            m[Available] + m[Occupied] + m[Maintenance] + m[Reserved] + m[OutOfService] == |rooms|
  {
    CountsAddUpToRooms(rooms);
  }
}

/** The room service's `RoomService` and `HotelService`: the hotel and room catalogue
    the booking service asks for room data. Room types and statuses arrive as strings
    and are turned into constants with `valueOf`; both searches filter the whole table
    as listed by `findAll`, whose order is the caller's `all`. */
module RoomCatalogue {
  import opened Wrappers
  import opened Text
  import opened Rooms
  import opened RoomServiceRequests
  import Seqs
  import Hotels
  import HotelRequests

  /** The five tests of `searchAvailableRooms`: hotel, type name, occupancy, the two
      inclusive price bounds, and an AVAILABLE status. The type is compared by name, so an
      unknown name matches nothing; the requested dates play no part. */
  predicate RoomMatches(x: Room, req: SearchRequest)
  {
    && (req.hotelId.Some? ==> x.hotelId == req.hotelId.value)
    && (req.roomType.Some? ==> RoomTypeName(x.roomType) == req.roomType.value)
    && (req.minOccupancy.Some? ==> x.maxOccupancy >= req.minOccupancy.value)
    && (req.minPrice.Some? ==> x.price >= req.minPrice.value)
    && (req.maxPrice.Some? ==> x.price <= req.maxPrice.value)
    && x.status == Available
  }

  /** `searchAvailableRooms` over the rooms `findAll` lists. */
  function SearchAvailableRooms(all: seq<Room>, req: SearchRequest): (r: seq<Room>)
    ensures |r| <= |all|
    ensures forall x :: x in r <==> x in all && RoomMatches(x, req)
  {
    Seqs.Filter(all, x => RoomMatches(x, req))
  }

  /** The search keeps the order of the listing: searching two parts of the list one
      after the other gives the search of the whole list. */
  lemma SearchKeepsListOrder(a: seq<Room>, b: seq<Room>, req: SearchRequest)
    ensures SearchAvailableRooms(a + b, req) == SearchAvailableRooms(a, req) + SearchAvailableRooms(b, req)
  {
    Seqs.FilterKeepsOrder(a, b, x => RoomMatches(x, req));
  }

  /** Searching the results again with the same request finds them all again, in order. */
  lemma SearchIsIdempotent(all: seq<Room>, req: SearchRequest)
    ensures SearchAvailableRooms(SearchAvailableRooms(all, req), req) == SearchAvailableRooms(all, req)
  {
    Seqs.FilterIdempotent(all, x => RoomMatches(x, req));
  }

  /** The check-in and check-out dates of the request do not change the result. */
  lemma SearchIgnoresDates(all: seq<Room>, req: SearchRequest, checkIn: Option<int>, checkOut: Option<int>)
    ensures SearchAvailableRooms(all, req) == SearchAvailableRooms(all, req.(checkIn := checkIn, checkOut := checkOut))
  {
    var req' := req.(checkIn := checkIn, checkOut := checkOut);
    Seqs.FilterSameTest(all, x => RoomMatches(x, req), x => RoomMatches(x, req'));
  }

  /** A type name that is not a constant's name finds no room, where `createRoom` would
      throw. */
  lemma UnknownTypeFindsNothing(all: seq<Room>, req: SearchRequest)
    requires req.roomType.Some? && ParseRoomType(req.roomType.value).Err?
    ensures SearchAvailableRooms(all, req) == []
  {
    Seqs.FilterKeepsNone(all, x => RoomMatches(x, req));
  }

  /** The tests of `searchHotels`: a non-empty term found, ignoring case, in the name or
      in a description that is there; city and country compared ignoring case; a hotel
      without a rating failing any minimum; with available rooms asked for, one of the
      hotel's rooms AVAILABLE. Whether the hotel is active is not looked at. */
  predicate HotelMatches(h: Hotels.Hotel, rooms: RoomTable, req: HotelRequests.SearchRequest)
  {
    && (req.searchTerm.Some? && req.searchTerm.value != "" ==>
          ContainsIgnoreCase(h.name, req.searchTerm.value)
          || (h.description.Some? && ContainsIgnoreCase(h.description.value, req.searchTerm.value)))
    && (req.city.Some? ==> EqualsIgnoreCase(h.city, req.city.value))
    && (req.country.Some? ==> EqualsIgnoreCase(h.country, req.country.value))
    && (req.minStarRating.Some? ==> h.starRating.Some? && h.starRating.value >= req.minStarRating.value)
    && (req.onlyWithAvailableRooms == Some(true) ==> HasAvailableRoom(rooms, h.id))
  }

  /** `searchHotels` over the hotels `findAll` lists. */
  function SearchHotels(all: seq<Hotels.Hotel>, rooms: RoomTable, req: HotelRequests.SearchRequest)
    : (r: seq<Hotels.Hotel>)
    ensures |r| <= |all|
    ensures forall h :: h in r <==> h in all && HotelMatches(h, rooms, req)
  {
    Seqs.Filter(all, h => HotelMatches(h, rooms, req))
  }

  /** A search without criteria lists every hotel, inactive ones included, in order. */
  lemma EmptySearchListsEveryHotel(all: seq<Hotels.Hotel>, rooms: RoomTable)
    ensures SearchHotels(all, rooms, HotelRequests.SearchRequest(None, None, None, None, None)) == all
  {
    var req := HotelRequests.SearchRequest(None, None, None, None, None);
    Seqs.FilterKeepsAll(all, h => HotelMatches(h, rooms, req));
  }

  /** An empty search term is no filter. */
  lemma EmptyTermIsIgnored(all: seq<Hotels.Hotel>, rooms: RoomTable, req: HotelRequests.SearchRequest)
    requires req.searchTerm == Some("")
    ensures SearchHotels(all, rooms, req) == SearchHotels(all, rooms, req.(searchTerm := None))
  {
    var req' := req.(searchTerm := None);
    Seqs.FilterSameTest(all, h => HotelMatches(h, rooms, req), h => HotelMatches(h, rooms, req'));
  }

  /** The hotels and rooms tables of the room service. */
  class Catalogue {
    var hotels: Hotels.HotelTable
    var rooms: RoomTable
    var nextHotelId: nat
    var nextRoomId: nat

    /** Rows keyed by id below the next id, every room in an existing hotel, and room
        numbers unique per hotel. */
    ghost predicate Valid()
      reads this
    {
      && Hotels.Keyed(hotels) && Rooms.Keyed(rooms)
      && (forall id :: id in hotels ==> id < nextHotelId)
      && (forall id :: id in rooms ==> id < nextRoomId)
      && (forall id :: id in rooms ==> rooms[id].hotelId in hotels)
      && UniqueRoomNumbers(rooms)
    }

    constructor ()
      ensures Valid() && hotels == map[] && rooms == map[]
    {
      hotels := map[];
      rooms := map[];
      nextHotelId := 1;
      nextRoomId := 1;
    }

    /** `getRoomById`. */
    method GetRoomById(id: nat) returns (r: Result<Room>)
      ensures r.Ok? <==> id in rooms
      ensures r.Ok? ==> r.value == rooms[id]
      ensures r.Err? ==> r.failure == NotFound(RoomEntity)
    {
      if id !in rooms {
        return Err(NotFound(RoomEntity));
      }
      r := Ok(rooms[id]);
    }

    /** `createRoom`: the hotel must exist and the number be free in it; a type or status
        string that names no constant is refused after those checks. */
    method CreateRoom(req: CreateRequest) returns (r: Result<Room>)
      requires Valid() && req.HasRequiredFields()
      modifies this
      ensures Valid()
      ensures req.hotelId.value !in old(hotels) <==> r == Err(NotFound(HotelEntity))
      ensures (req.hotelId.value in old(hotels)
               && ExistsByRoomNumberAndHotelId(old(rooms), req.roomNumber.value, req.hotelId.value))
              <==> r == Err(Business(DuplicateRoomNumber))
      ensures r == Err(IllegalArgument) <==>
                req.hotelId.value in old(hotels)
                && !ExistsByRoomNumberAndHotelId(old(rooms), req.roomNumber.value, req.hotelId.value)
                && req.NewRoom(old(nextRoomId)).Err?
      ensures r.Ok? <==> req.hotelId.value in old(hotels)
                         && !ExistsByRoomNumberAndHotelId(old(rooms), req.roomNumber.value, req.hotelId.value)
                         && req.NewRoom(old(nextRoomId)).Ok?
      ensures r.Ok? ==> r == req.NewRoom(old(nextRoomId)) && r.value.id !in old(rooms)
                        && rooms == old(rooms)[r.value.id := r.value]
      ensures r.Ok? && req.status.None? ==> r.value.status == Available
      ensures r.Err? ==> rooms == old(rooms) && nextRoomId == old(nextRoomId)
      ensures hotels == old(hotels) && nextHotelId == old(nextHotelId)
    {
      if req.hotelId.value !in hotels {
        return Err(NotFound(HotelEntity));
      }
      if ExistsByRoomNumberAndHotelId(rooms, req.roomNumber.value, req.hotelId.value) {
        return Err(Business(DuplicateRoomNumber));
      }
      var built := req.NewRoom(nextRoomId);
      if built.Err? {
        return Err(IllegalArgument);
      }
      var room := built.value;
      InsertFreeNumberKeepsUnique(rooms, room);
      rooms := rooms[room.id := room];
      nextRoomId := nextRoomId + 1;
      r := Ok(room);
    }

    /** `updateRoom`: a rename to a number another room of the hotel uses is refused; then
        the given fields change, and an unknown type or status name undoes the update. */
    method UpdateRoom(id: nat, req: UpdateRequest) returns (r: Result<Room>)
      requires Valid()
      modifies this
      ensures Valid()
      ensures id !in old(rooms) <==> r == Err(NotFound(RoomEntity))
      ensures id in old(rooms) ==>
                var room := old(rooms)[id];
                (r == Err(Business(DuplicateRoomNumber)) <==>
                   req.roomNumber.Some? && req.roomNumber.value != room.roomNumber
                   && ExistsByRoomNumberAndHotelId(old(rooms), req.roomNumber.value, room.hotelId))
      ensures id in old(rooms) ==>
                var room := old(rooms)[id];
                var duplicate := req.roomNumber.Some? && req.roomNumber.value != room.roomNumber
                                 && ExistsByRoomNumberAndHotelId(old(rooms), req.roomNumber.value, room.hotelId);
                && (r == Err(IllegalArgument) <==> !duplicate && req.Changes().Err?)
                && (r.Ok? <==> !duplicate && req.Changes().Ok?)
      ensures r.Ok? ==> req.Changes().Ok? && r.value == ApplyChanges(old(rooms)[id], req.Changes().value)
                        && rooms == old(rooms)[id := r.value]
      ensures r.Err? ==> rooms == old(rooms)
      ensures hotels == old(hotels) && nextRoomId == old(nextRoomId) && nextHotelId == old(nextHotelId)
    {
      if id !in rooms {
        return Err(NotFound(RoomEntity));
      }
      var room := rooms[id];
      if req.roomNumber.Some? && req.roomNumber.value != room.roomNumber
         && ExistsByRoomNumberAndHotelId(rooms, req.roomNumber.value, room.hotelId) {
        return Err(Business(DuplicateRoomNumber));
      }
      var changes := req.Changes();
      if changes.Err? {
        return Err(IllegalArgument);
      }
      var updated := ApplyChanges(room, changes.value);
      RewriteKeepsUnique(rooms, id, updated);
      rooms := rooms[id := updated];
      r := Ok(updated);
    }

    /** `updateRoomStatus`: a missing room is reported before an unknown status name;
        only the status of that one room changes. */
    method UpdateRoomStatus(id: nat, status: string) returns (r: Result<Room>)
      requires Valid()
      modifies this
      ensures Valid()
      ensures id !in old(rooms) <==> r == Err(NotFound(RoomEntity))
      ensures id in old(rooms) ==> (r == Err(IllegalArgument) <==> ParseRoomStatus(status).Err?)
      ensures r.Ok? <==> id in old(rooms) && ParseRoomStatus(status).Ok?
      ensures r.Ok? ==> RoomStatusName(r.value.status) == status
                        && r.value == old(rooms)[id].(status := r.value.status)
                        && rooms == old(rooms)[id := r.value]
      ensures r.Err? ==> rooms == old(rooms)
      ensures hotels == old(hotels) && nextRoomId == old(nextRoomId) && nextHotelId == old(nextHotelId)
    {
      if id !in rooms {
        return Err(NotFound(RoomEntity));
      }
      var parsed := ParseRoomStatus(status);
      if parsed.Err? {
        return Err(IllegalArgument);
      }
      var updated := rooms[id].(status := parsed.value);
      RewriteKeepsUnique(rooms, id, updated);
      rooms := rooms[id := updated];
      r := Ok(updated);
    }

    /** `createHotel`: every field copied from the request; a hotel is active unless the
        request says otherwise. */
    method CreateHotel(req: HotelRequests.CreateRequest) returns (h: Hotels.Hotel)
      requires Valid() && req.HasRequiredFields()
      modifies this
      ensures Valid()
      ensures h.id == old(nextHotelId) && h.id !in old(hotels) && hotels == old(hotels)[h.id := h]
      ensures h.name == req.name.value && h.address == req.address.value
      ensures h.city == req.city.value && h.country == req.country.value
      ensures Hotels.ApplyChanges(h, req.AsChanges()) == h
      ensures h.active == req.active.GetOr(true)
      ensures rooms == old(rooms) && nextRoomId == old(nextRoomId)
    {
      var id := nextHotelId;
      h := Hotels.Hotel(id, req.name.value, req.description, req.address.value, req.city.value,
                        req.country.value, req.postalCode, req.phoneNumber, req.email, req.website,
                        req.starRating, req.amenities, req.imageUrl, req.active.GetOr(true));
      hotels := hotels[id := h];
      nextHotelId := nextHotelId + 1;
    }

    /** `updateHotel`: only the given fields change. */
    method UpdateHotel(id: nat, c: Hotels.HotelChanges) returns (r: Result<Hotels.Hotel>)
      requires Valid()
      modifies this
      ensures Valid()
      ensures id !in old(hotels) <==> r == Err(NotFound(HotelEntity))
      ensures r.Ok? <==> id in old(hotels)
      ensures r.Ok? ==> r.value == Hotels.ApplyChanges(old(hotels)[id], c) && hotels == old(hotels)[id := r.value]
      ensures r.Err? ==> hotels == old(hotels)
      ensures rooms == old(rooms) && nextRoomId == old(nextRoomId) && nextHotelId == old(nextHotelId)
    {
      if id !in hotels {
        return Err(NotFound(HotelEntity));
      }
      var updated := Hotels.ApplyChanges(hotels[id], c);
      hotels := hotels[id := updated];
      r := Ok(updated);
    }
  }
}

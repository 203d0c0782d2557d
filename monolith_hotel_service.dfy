/** The monolith's `HotelService` and `HotelRepository`: hotel creation and update on
    the `Database`, the hotel search, and the room counts shown with each hotel. */
module MonolithHotelService {
  import opened Wrappers
  import opened Text
  import opened Hotels
  import opened HotelRequests
  import opened MonolithStore
  import Rooms

  /** `createHotel`: every field copied from the request; a hotel is active unless the
      request says otherwise. */
  method CreateHotel(db: Database, req: CreateRequest) returns (h: Hotel)
    requires db.Valid() && req.HasRequiredFields()
    modifies db
    ensures db.Valid()
    ensures h.id == old(db.nextId) && h.id !in old(db.hotels) && db.hotels == old(db.hotels)[h.id := h]
    ensures h.name == req.name.value && h.address == req.address.value
    ensures h.city == req.city.value && h.country == req.country.value
    ensures h.starRating == req.starRating && h.phoneNumber == req.phoneNumber
    ensures ApplyChanges(h, req.AsChanges()) == h
    ensures h.active == req.active.GetOr(true)
    ensures req.active.None? ==> h.active
    ensures db.rooms == old(db.rooms) && db.bookings == old(db.bookings) && db.users == old(db.users)
  {
    var id := db.Allocate();
    h := Hotel(id, req.name.value, req.description, req.address.value, req.city.value, req.country.value,
               req.postalCode, req.phoneNumber, req.email, req.website, req.starRating, req.amenities,
               req.imageUrl, req.active.GetOr(true));
    db.hotels := db.hotels[id := h];
  }

  /** `updateHotel`: only the given fields change. */
  method UpdateHotel(db: Database, id: nat, c: HotelChanges) returns (r: Result<Hotel>)
    requires db.Valid()
    modifies db
    ensures db.Valid()
    ensures id !in old(db.hotels) <==> r == Err(NotFound(HotelEntity))
    ensures r.Ok? <==> id in old(db.hotels)
    ensures r.Ok? ==> r.value == ApplyChanges(old(db.hotels)[id], c) && db.hotels == old(db.hotels)[id := r.value]
    ensures r.Ok? && c.active.None? ==> r.value.active == old(db.hotels)[id].active
    ensures r.Err? ==> unchanged(db)
    ensures db.rooms == old(db.rooms) && db.bookings == old(db.bookings) && db.users == old(db.users)
  {
    if id !in db.hotels {
      return Err(NotFound(HotelEntity));
    }
    var updated := ApplyChanges(db.hotels[id], c);
    db.hotels := db.hotels[id := updated];
    r := Ok(updated);
  }

  /** `findByActiveTrue`. */
  function ActiveHotels(hotels: HotelTable): set<Hotel>
  {
    set id | id in hotels && hotels[id].active :: hotels[id]
  }

  /** `findHotelsWithAvailableRooms`: the join keeps active hotels with at least one
      AVAILABLE room, each once. */
  function HotelsWithAvailableRooms(hotels: HotelTable, rooms: Rooms.RoomTable): set<Hotel>
  {
    set id | id in hotels && hotels[id].active && Rooms.HasAvailableRoom(rooms, id) :: hotels[id]
  }

  /** The four stream filters of `searchHotels`: city and country compared ignoring case,
      a hotel without a rating failing any minimum, and the term found, ignoring case, in
      the name or the city. */
  predicate MatchesSearch(h: Hotel, req: SearchRequest)
  {
    && (req.city.Some? ==> EqualsIgnoreCase(h.city, req.city.value))
    && (req.country.Some? ==> EqualsIgnoreCase(h.country, req.country.value))
    && (req.minStarRating.Some? ==> h.starRating.Some? && h.starRating.value >= req.minStarRating.value)
    && (req.searchTerm.Some? ==> ContainsIgnoreCase(h.name, req.searchTerm.value)
                                 || ContainsIgnoreCase(h.city, req.searchTerm.value))
  }

  /** `searchHotels`. */
  function SearchHotels(hotels: HotelTable, rooms: Rooms.RoomTable, req: SearchRequest): (r: set<Hotel>)
    requires Hotels.Keyed(hotels)
    ensures forall h :: h in r <==>
              (h in hotels.Values && h.active
               && (req.onlyWithAvailableRooms == Some(true) ==> Rooms.HasAvailableRoom(rooms, h.id))
               && MatchesSearch(h, req))
  {
    var base := if req.onlyWithAvailableRooms == Some(true) then HotelsWithAvailableRooms(hotels, rooms)
                else ActiveHotels(hotels);
    set h | h in base && MatchesSearch(h, req)
  }

  /** An inactive hotel is never found, and neither is a hotel without a star rating once
      a minimum rating is asked for. */
  lemma SearchSkipsInactiveAndUnrated(hotels: HotelTable, rooms: Rooms.RoomTable, req: SearchRequest, h: Hotel)
    requires Hotels.Keyed(hotels)
    requires !h.active || (h.starRating.None? && req.minStarRating.Some?)
    ensures h !in SearchHotels(hotels, rooms, req)
  {
  }

  /** An empty search term is no filter: every hotel contains the empty string. */
  lemma EmptyTermMatchesEveryHotel(hotels: HotelTable, rooms: Rooms.RoomTable, req: SearchRequest)
    requires Hotels.Keyed(hotels) && req.searchTerm == Some("")
    ensures SearchHotels(hotels, rooms, req) == SearchHotels(hotels, rooms, req.(searchTerm := None))
  {
    forall h | h in hotels.Values
      ensures MatchesSearch(h, req) == MatchesSearch(h, req.(searchTerm := None))
    {
      ContainsEmpty(ToLower(h.name));
    }
    assert forall h :: h in SearchHotels(hotels, rooms, req) <==> h in SearchHotels(hotels, rooms, req.(searchTerm := None));
  }

  /** The ids of the rooms of a hotel (`hotel.getRooms()`). */
  function RoomsOf(rooms: Rooms.RoomTable, hotelId: nat): set<nat>
  {
    set id | id in rooms && rooms[id].hotelId == hotelId
  }

  /** Those of them that are AVAILABLE. */
  function AvailableRoomsOf(rooms: Rooms.RoomTable, hotelId: nat): set<nat>
  {
    set id | id in rooms && rooms[id].hotelId == hotelId && rooms[id].status == Rooms.Available
  }

  /** The room counts `convertToDto` adds to a hotel. */
  datatype HotelView = HotelView(hotel: Hotel, totalRooms: nat, availableRooms: nat)

  /** `convertToDto`: a hotel never shows more available rooms than rooms, and shows an
      available room exactly when one exists. */
  function ToView(h: Hotel, rooms: Rooms.RoomTable): (v: HotelView)
    ensures v.hotel == h
    ensures v.availableRooms <= v.totalRooms <= |rooms|
    ensures v.availableRooms > 0 <==> Rooms.HasAvailableRoom(rooms, h.id)
  {
    var all, available := RoomsOf(rooms, h.id), AvailableRoomsOf(rooms, h.id);
    assert available <= all <= rooms.Keys;
    SubsetIsSmaller(available, all);
    SubsetIsSmaller(all, rooms.Keys);
    assert |available| > 0 <==> Rooms.HasAvailableRoom(rooms, h.id) by {
      if Rooms.HasAvailableRoom(rooms, h.id) {
        var id :| id in rooms && rooms[id].hotelId == h.id && rooms[id].status == Rooms.Available;
        assert id in available;
      }
      if |available| > 0 {
        var id :| id in available;
      }
    }
    HotelView(h, |all|, |available|)
  }

  lemma {:induction false} SubsetIsSmaller(a: set<nat>, b: set<nat>)
    requires a <= b
    ensures |a| <= |b|
    decreases |b|
  {
    if b != {} {
      var x :| x in b;
      SubsetIsSmaller(a - {x}, b - {x});
    }
  }

  /** With available rooms asked for, the search returns exactly the hotels whose view
      shows an available room. */
  lemma AvailableRoomsFilterAgreesWithView(hotels: HotelTable, rooms: Rooms.RoomTable, req: SearchRequest, h: Hotel)
    requires Hotels.Keyed(hotels) && req.onlyWithAvailableRooms == Some(true)
    requires h in hotels.Values && h.active && MatchesSearch(h, req)
    ensures h in SearchHotels(hotels, rooms, req) <==> ToView(h, rooms).availableRooms > 0
  {
  }
}

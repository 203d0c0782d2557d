/** The monolith's database: the four tables its services read and write, as one
    object whose fields the service operations update in place. Ids come from one
    increasing sequence; a rolled-back operation leaves every table and the sequence
    as they were. */
module MonolithStore {
  import opened Wrappers
  import opened Bookings
  import opened Rooms
  import opened Hotels
  import opened Users
  import R = MonolithBookingRepository

  /** Every room belongs to a stored hotel (`rooms.hotel_id`). */
  predicate RoomsReferenceHotels(rooms: RoomTable, hotels: HotelTable)
  {
    forall id :: id in rooms ==> rooms[id].hotelId in hotels
  }

  /** Every booking names a stored room and a stored user. */
  predicate BookingsReferenceRooms(bookings: R.Table, rooms: RoomTable, users: UserTable)
  {
    forall id :: id in bookings ==> bookings[id].roomId in rooms && bookings[id].userId in users
  }

  class Database {
    var hotels: HotelTable
    var rooms: RoomTable
    var bookings: R.Table
    var users: UserTable
    var nextId: nat

    /** Rows keyed by their ids, ids below the next one handed out, the unique keys of
        the room, user and booking tables, and the foreign keys. */
    ghost predicate Valid()
      reads this
    {
      && Hotels.Keyed(hotels) && Rooms.Keyed(rooms) && R.Keyed(bookings) && Users.Keyed(users)
      && (forall id :: id in hotels ==> id < nextId)
      && (forall id :: id in rooms ==> id < nextId)
      && (forall id :: id in bookings ==> id < nextId)
      && (forall id :: id in users ==> id < nextId)
      && UniqueRoomNumbers(rooms)
      && UniqueLogins(users)
      && R.UniqueConfirmationNumbers(bookings)
      && RoomsReferenceHotels(rooms, hotels)
      && BookingsReferenceRooms(bookings, rooms, users)
    }

    constructor ()
      ensures Valid()
      ensures hotels == map[] && rooms == map[] && bookings == map[] && users == map[]
    {
      hotels, rooms, bookings, users := map[], map[], map[], map[];
      nextId := 1;
    }

    /** The identity generator: a fresh id for the row about to be inserted. */
    method Allocate() returns (id: nat)
      requires Valid()
      modifies this
      ensures Valid()
      ensures id == old(nextId) && nextId == id + 1
      ensures id !in hotels && id !in rooms && id !in bookings && id !in users
      ensures hotels == old(hotels) && rooms == old(rooms) && bookings == old(bookings) && users == old(users)
    {
      id := nextId;
      nextId := nextId + 1;
    }
  }
}

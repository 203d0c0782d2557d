/** The room record, its two enums and the per-hotel room-number uniqueness of the
    `rooms` table. Both the monolith and the room service store rooms this way. */
module Rooms {
  import opened Wrappers

  datatype RoomType = Single | Double | Twin | Suite | Deluxe | Presidential

  datatype RoomStatus = Available | Occupied | Maintenance | Reserved | OutOfService

  const RoomTypes: seq<RoomType> := [Single, Double, Twin, Suite, Deluxe, Presidential]

  const RoomStatuses: seq<RoomStatus> := [Available, Occupied, Maintenance, Reserved, OutOfService]

  /** There are six room types and five room statuses, each listed once. */
  lemma EnumsAreComplete(t: RoomType, s: RoomStatus)
    ensures t in RoomTypes && |RoomTypes| == 6
    ensures forall i, j :: 0 <= i < j < |RoomTypes| ==> RoomTypes[i] != RoomTypes[j]
    ensures s in RoomStatuses && |RoomStatuses| == 5
    ensures forall i, j :: 0 <= i < j < |RoomStatuses| ==> RoomStatuses[i] != RoomStatuses[j]
  {
  }

  function RoomTypeName(t: RoomType): string
  {
    match t
    case Single => "SINGLE"
    case Double => "DOUBLE"
    case Twin => "TWIN"
    case Suite => "SUITE"
    case Deluxe => "DELUXE"
    case Presidential => "PRESIDENTIAL"
  }

  /** `RoomType.getDisplayName()`. */
  function DisplayName(t: RoomType): string
  {
    match t
    case Single => "Single Room"
    case Double => "Double Room"
    case Twin => "Twin Room"
    case Suite => "Suite"
    case Deluxe => "Deluxe Room"
    case Presidential => "Presidential Suite"
  }

  /** `RoomType.valueOf(name)`. */
  function ParseRoomType(name: string): (r: Result<RoomType>)
    ensures r.Ok? ==> RoomTypeName(r.value) == name
    ensures r.Err? ==> r.failure == IllegalArgument && forall t :: RoomTypeName(t) != name
  {
    if name == "SINGLE" then Ok(Single)
    else if name == "DOUBLE" then Ok(Double)
    else if name == "TWIN" then Ok(Twin)
    else if name == "SUITE" then Ok(Suite)
    else if name == "DELUXE" then Ok(Deluxe)
    else if name == "PRESIDENTIAL" then Ok(Presidential)
    else Err(IllegalArgument)
  }

  function RoomStatusName(s: RoomStatus): string
  {
    match s
    case Available => "AVAILABLE"
    case Occupied => "OCCUPIED"
    case Maintenance => "MAINTENANCE"
    case Reserved => "RESERVED"
    case OutOfService => "OUT_OF_SERVICE"
  }

  /** `RoomStatus.valueOf(name)`. */
  function ParseRoomStatus(name: string): (r: Result<RoomStatus>)
    ensures r.Ok? ==> RoomStatusName(r.value) == name
    ensures r.Err? ==> r.failure == IllegalArgument && forall s :: RoomStatusName(s) != name
  {
    if name == "AVAILABLE" then Ok(Available)
    else if name == "OCCUPIED" then Ok(Occupied)
    else if name == "MAINTENANCE" then Ok(Maintenance)
    else if name == "RESERVED" then Ok(Reserved)
    else if name == "OUT_OF_SERVICE" then Ok(OutOfService)
    else Err(IllegalArgument)
  }

  /** Parsing a constant's name gives the constant back; a display name is refused. */
  lemma RoomNamesRoundTrip(t: RoomType, s: RoomStatus)
    ensures ParseRoomType(RoomTypeName(t)) == Ok(t)
    ensures ParseRoomStatus(RoomStatusName(s)) == Ok(s)
    ensures ParseRoomType(DisplayName(t)).Err?
  {
  }

  /** A room row; price in cents. */
  datatype Room = Room(
    id: nat,
    hotelId: nat,
    roomNumber: string,
    roomType: RoomType,
    price: int,
    maxOccupancy: int,
    description: Option<string>,
    facilities: Option<string>,
    floor: Option<int>,
    imageUrl: Option<string>,
    status: RoomStatus)

  /** `@Builder.Default` of the status column. */
  const DefaultStatus: RoomStatus := Available

  /** The column limits of the table: `room_number` holds ten characters,
      `price_per_night` ten digits of which two are decimals. */
  predicate FitsColumns(r: Room)
  {
    |r.roomNumber| <= 10 && -10_000_000_000 < r.price < 10_000_000_000
  }

  type RoomTable = map<nat, Room>

  /** Rows are keyed by their own id. */
  predicate Keyed(t: RoomTable)
  {
    forall id :: id in t ==> t[id].id == id
  }

  /** The unique key `uk_room_number_hotel` on (room_number, hotel_id). */
  predicate UniqueRoomNumbers(t: RoomTable)
  {
    forall i, j :: i in t && j in t && i != j && t[i].hotelId == t[j].hotelId
      ==> t[i].roomNumber != t[j].roomNumber
  }

  /** `existsByRoomNumberAndHotelId`. */
  predicate ExistsByRoomNumberAndHotelId(t: RoomTable, roomNumber: string, hotelId: nat)
  {
    exists id :: id in t && t[id].roomNumber == roomNumber && t[id].hotelId == hotelId
  }

  /** A room of hotel `hotelId` is AVAILABLE. */
  predicate HasAvailableRoom(t: RoomTable, hotelId: nat)
  {
    exists id :: id in t && t[id].hotelId == hotelId && t[id].status == Available
  }

  /** Inserting a room whose number is free in its hotel keeps numbers unique. */
  lemma InsertFreeNumberKeepsUnique(t: RoomTable, r: Room)
    requires UniqueRoomNumbers(t) && r.id !in t
    requires !ExistsByRoomNumberAndHotelId(t, r.roomNumber, r.hotelId)
    ensures UniqueRoomNumbers(t[r.id := r])
  {
    var t' := t[r.id := r];
    forall i, j | i in t' && j in t' && i != j && t'[i].hotelId == t'[j].hotelId
      ensures t'[i].roomNumber != t'[j].roomNumber
    {
      if i == r.id {
        assert t[j].hotelId == r.hotelId;
      } else if j == r.id {
        assert t[i].hotelId == r.hotelId;
      }
    }
  }

  /** Rewriting a room that keeps its hotel, and whose number is its old one or free in
      that hotel, keeps numbers unique. */
  lemma RewriteKeepsUnique(t: RoomTable, id: nat, r: Room)
    requires UniqueRoomNumbers(t) && id in t && r.hotelId == t[id].hotelId
    requires r.roomNumber == t[id].roomNumber || !ExistsByRoomNumberAndHotelId(t, r.roomNumber, r.hotelId)
    ensures UniqueRoomNumbers(t[id := r])
  {
    var t' := t[id := r];
    forall i, j | i in t' && j in t' && i != j && t'[i].hotelId == t'[j].hotelId
      ensures t'[i].roomNumber != t'[j].roomNumber
    {
      if i == id {
        assert t[j].hotelId == r.hotelId;
      } else if j == id {
        assert t[i].hotelId == r.hotelId;
      }
    }
  }

  /** The fields of a partial room update; a missing field means "keep". */
  datatype RoomChanges = RoomChanges(
    roomNumber: Option<string>,
    roomType: Option<RoomType>,
    price: Option<int>,
    maxOccupancy: Option<int>,
    description: Option<string>,
    facilities: Option<string>,
    floor: Option<int>,
    imageUrl: Option<string>,
    status: Option<RoomStatus>)

  const NoChanges := RoomChanges(None, None, None, None, None, None, None, None, None)

  /** The chain of `if (x != null) room.setX(x)` of both `updateRoom`s. */
  function ApplyChanges(r: Room, c: RoomChanges): (r': Room)
    ensures r'.id == r.id && r'.hotelId == r.hotelId
  {
    r.(roomNumber := c.roomNumber.GetOr(r.roomNumber),
       roomType := c.roomType.GetOr(r.roomType),
       price := c.price.GetOr(r.price),
       maxOccupancy := c.maxOccupancy.GetOr(r.maxOccupancy),
       description := c.description.Or(r.description),
       facilities := c.facilities.Or(r.facilities),
       floor := c.floor.Or(r.floor),
       imageUrl := c.imageUrl.Or(r.imageUrl),
       status := c.status.GetOr(r.status))
  }

  /** Null means keep: an empty update changes nothing, an update applied twice is
      applied once, and a field the update leaves out keeps its value. */
  lemma ChangesKeepOmittedFields(r: Room, c: RoomChanges)
    ensures ApplyChanges(r, NoChanges) == r
    ensures ApplyChanges(ApplyChanges(r, c), c) == ApplyChanges(r, c)
    ensures c.roomNumber.None? ==> ApplyChanges(r, c).roomNumber == r.roomNumber
    ensures c.status.None? ==> ApplyChanges(r, c).status == r.status
    ensures c.price.None? ==> ApplyChanges(r, c).price == r.price
    ensures c.maxOccupancy.None? ==> ApplyChanges(r, c).maxOccupancy == r.maxOccupancy
  {
  }
}

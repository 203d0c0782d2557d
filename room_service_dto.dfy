/** The room service's request bodies. Unlike the monolith's, they carry the room type and
    status as strings, which the service turns into constants with `valueOf`. */
module RoomServiceRequests {
  import opened Wrappers
  import opened Text
  import opened Constraints
  import opened Rooms
  import Typed = RoomRequests

  /** `valueOf` of an optional status string; a missing one stays missing. */
  function ParseOptionalStatus(s: Option<string>): (r: Result<Option<RoomStatus>>)
    ensures r.Ok? <==> s.None? || ParseRoomStatus(s.value).Ok?
    ensures r.Ok? ==> (r.value.None? <==> s.None?)
    ensures r.Ok? && s.Some? ==> RoomStatusName(r.value.value) == s.value
    ensures r.Err? ==> r.failure == IllegalArgument
  {
    match s
    case None => Ok(None)
    case Some(name) =>
      match ParseRoomStatus(name)
      case Ok(st) => Ok(Some(st))
      case Err(e) => Err(e)
  }

  /** `valueOf` of an optional room-type string. */
  function ParseOptionalType(s: Option<string>): (r: Result<Option<RoomType>>)
    ensures r.Ok? <==> s.None? || ParseRoomType(s.value).Ok?
    ensures r.Ok? ==> (r.value.None? <==> s.None?)
    ensures r.Ok? && s.Some? ==> RoomTypeName(r.value.value) == s.value
    ensures r.Err? ==> r.failure == IllegalArgument
  {
    match s
    case None => Ok(None)
    case Some(name) =>
      match ParseRoomType(name)
      case Ok(t) => Ok(Some(t))
      case Err(e) => Err(e)
  }

  datatype CreateRequest = CreateRequest(
    hotelId: Option<nat>,
    roomNumber: Option<string>,
    roomType: Option<string>,
    price: Option<int>,
    maxOccupancy: Option<int>,
    description: Option<string>,
    facilities: Option<string>,
    floor: Option<int>,
    imageUrl: Option<string>,
    status: Option<string>)
  {
    /** The fields the service dereferences or stores in a NOT NULL column. */
    predicate HasRequiredFields()
    {
      hotelId.Some? && roomNumber.Some? && roomType.Some? && price.Some? && maxOccupancy.Some?
    }

    predicate IsValid()
    {
      && HasRequiredFields()
      && NotBlank(roomNumber) && SizeAtMost(roomNumber, 10)
      && NotBlank(roomType)
      && Positive(price) && PriceDigits(price)
      && Between(maxOccupancy, 1, 10)
      && SizeAtMost(description, 1000)
      && SizeAtMost(facilities, 500)
      && Between(floor, -5, 100)
      && SizeAtMost(imageUrl, 500)
    }

    /** The row `createRoom` builds: the type string parsed, the status string parsed when
        given and AVAILABLE otherwise; an unknown name throws before anything is saved. */
    function NewRoom(id: nat): (r: Result<Room>)
      requires HasRequiredFields()
      ensures r.Ok? <==> ParseRoomType(roomType.value).Ok? && ParseOptionalStatus(status).Ok?
      ensures r.Ok? ==> r.value.id == id && r.value.hotelId == hotelId.value
                        && r.value.roomNumber == roomNumber.value
                        && RoomTypeName(r.value.roomType) == roomType.value
      ensures r.Ok? && status.None? ==> r.value.status == DefaultStatus
      ensures r.Ok? && status.Some? ==> RoomStatusName(r.value.status) == status.value
      ensures r.Err? ==> r.failure == IllegalArgument
    {
      match ParseRoomType(roomType.value)
      case Err(e) => Err(e)
      case Ok(t) =>
        match ParseOptionalStatus(status)
        case Err(e) => Err(e)
        case Ok(st) =>
          Ok(Room(id, hotelId.value, roomNumber.value, t, price.value, maxOccupancy.value,
                  description, facilities, floor, imageUrl, st.GetOr(DefaultStatus)))
    }
  }

  datatype UpdateRequest = UpdateRequest(
    roomNumber: Option<string>,
    roomType: Option<string>,
    price: Option<int>,
    maxOccupancy: Option<int>,
    description: Option<string>,
    facilities: Option<string>,
    floor: Option<int>,
    imageUrl: Option<string>,
    status: Option<string>)
  {
    predicate IsValid()
    {
      && SizeAtMost(roomNumber, 10)
      && Positive(price) && PriceDigits(price)
      && Between(maxOccupancy, 1, 10)
      && SizeAtMost(description, 1000)
      && SizeAtMost(facilities, 500)
      && Between(floor, -5, 100)
      && SizeAtMost(imageUrl, 500)
    }

    /** The typed changes, or the `valueOf` failure of the type or status string. */
    function Changes(): (r: Result<RoomChanges>)
      ensures r.Ok? <==> ParseOptionalType(roomType).Ok? && ParseOptionalStatus(status).Ok?
      ensures r.Ok? ==> r.value.roomNumber == roomNumber && r.value.price == price
                        && r.value.maxOccupancy == maxOccupancy && r.value.description == description
                        && r.value.facilities == facilities && r.value.floor == floor
                        && r.value.imageUrl == imageUrl
                        && (r.value.roomType.None? <==> roomType.None?)
                        && (r.value.status.None? <==> status.None?)
      ensures r.Err? ==> r.failure == IllegalArgument
    {
      match ParseOptionalType(roomType)
      case Err(e) => Err(e)
      case Ok(t) =>
        match ParseOptionalStatus(status)
        case Err(e) => Err(e)
        case Ok(st) =>
          Ok(RoomChanges(roomNumber, t, price, maxOccupancy, description, facilities, floor, imageUrl, st))
    }
  }

  datatype SearchRequest = SearchRequest(
    hotelId: Option<nat>,
    roomType: Option<string>,
    minOccupancy: Option<int>,
    minPrice: Option<int>,
    maxPrice: Option<int>,
    checkIn: Option<int>,
    checkOut: Option<int>)
  {
    predicate IsValid(today: int)
    {
      && AtLeast(minOccupancy, 1)
      && Positive(minPrice) && Positive(maxPrice)
      && checkIn.Some? && TodayOrLater(checkIn, today)
      && checkOut.Some? && AfterToday(checkOut, today)
    }
  }

  /** The string request carrying the constant names of a typed monolith request. */
  function FromTyped(m: Typed.CreateRequest): CreateRequest
  {
    CreateRequest(m.hotelId, m.roomNumber,
                  if m.roomType.Some? then Some(RoomTypeName(m.roomType.value)) else None,
                  m.price, m.maxOccupancy, m.description, m.facilities, m.floor, m.imageUrl,
                  if m.status.Some? then Some(RoomStatusName(m.status.value)) else None)
  }

  /** Spelled with the constant names, a monolith create request is valid here too and
      builds the very same room. */
  lemma SameRoomAsMonolith(m: Typed.CreateRequest, id: nat)
    requires m.HasRequiredFields()
    ensures FromTyped(m).HasRequiredFields()
    ensures FromTyped(m).NewRoom(id) == Ok(m.NewRoom(id))
    ensures m.IsValid() ==> FromTyped(m).IsValid()
  {
    RoomNamesRoundTrip(m.roomType.value, m.status.GetOr(DefaultStatus));
    var name := RoomTypeName(m.roomType.value);
    assert name[0] > ' ';
    NotBlankIffVisibleCharacter(Some(name));
  }

  /** The annotations do not check the type name: a valid request can still be refused by
      `valueOf`, for instance with the type written in lower case. */
  lemma ValidRequestRefusedByValueOf()
    ensures var req := CreateRequest(Some(1), Some("101"), Some("suite"), Some(10000), Some(2),
                                     None, None, None, None, None);
            req.IsValid() && req.NewRoom(7) == Err(IllegalArgument)
  {
    var req := CreateRequest(Some(1), Some("101"), Some("suite"), Some(10000), Some(2),
                             None, None, None, None, None);
    assert req.roomNumber.value[0] > ' ';
    NotBlankIffVisibleCharacter(req.roomNumber);
    assert req.roomType.value[0] > ' ';
    NotBlankIffVisibleCharacter(req.roomType);
  }
}

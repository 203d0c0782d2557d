/** The monolith's room request bodies, with the enums already typed, and their
    bean-validation constraints. The update request is `Rooms.RoomChanges`. */
module RoomRequests {
  import opened Wrappers
  import opened Text
  import opened Constraints
  import opened Rooms

  datatype CreateRequest = CreateRequest(
    hotelId: Option<nat>,
    roomNumber: Option<string>,
    roomType: Option<RoomType>,
    price: Option<int>,
    maxOccupancy: Option<int>,
    description: Option<string>,
    facilities: Option<string>,
    floor: Option<int>,
    imageUrl: Option<string>,
    status: Option<RoomStatus>)
  {
    /** The fields that end up in a NOT NULL column of the new row. */
    predicate HasRequiredFields()
    {
      hotelId.Some? && roomNumber.Some? && roomType.Some? && price.Some? && maxOccupancy.Some?
    }

    predicate IsValid()
    {
      && HasRequiredFields()
      && NotBlank(roomNumber) && SizeAtMost(roomNumber, 10)
      && Positive(price) && PriceDigits(price)
      && Between(maxOccupancy, 1, 10)
      && SizeAtMost(description, 1000)
      && SizeAtMost(facilities, 500)
      && Between(floor, -5, 100)
      && SizeAtMost(imageUrl, 500)
    }

    /** The row `createRoom` builds from the request: every field copied, the status
        defaulting to AVAILABLE. */
    function NewRoom(id: nat): (r: Room)
      requires HasRequiredFields()
      ensures r.id == id && r.hotelId == hotelId.value && r.roomNumber == roomNumber.value
      ensures r.status == status.GetOr(DefaultStatus)
    {
      Room(id, hotelId.value, roomNumber.value, roomType.value, price.value, maxOccupancy.value,
           description, facilities, floor, imageUrl, status.GetOr(DefaultStatus))
    }
  }

  /** The update request: all fields optional, the create bounds when present. */
  predicate UpdateIsValid(c: RoomChanges)
  {
    && SizeAtMost(c.roomNumber, 10)
    && Positive(c.price) && PriceDigits(c.price)
    && Between(c.maxOccupancy, 1, 10)
    && SizeAtMost(c.description, 1000)
    && SizeAtMost(c.facilities, 500)
    && Between(c.floor, -5, 100)
    && SizeAtMost(c.imageUrl, 500)
  }

  datatype SearchRequest = SearchRequest(
    hotelId: Option<nat>,
    roomType: Option<RoomType>,
    minOccupancy: Option<int>,
    minPrice: Option<int>,
    maxPrice: Option<int>,
    checkIn: Option<int>,
    checkOut: Option<int>)
  {
    predicate IsValid(today: int)
    {
      && AtLeast(minOccupancy, 1)
      && Positive(minPrice) && Positive(maxPrice)
      && checkIn.Some? && TodayOrLater(checkIn, today)
      && checkOut.Some? && AfterToday(checkOut, today)
    }
  }

  /** A room built from a valid create request fits the table's columns, has a positive
      price, room for 1 to 10 guests, and, with no status given, is AVAILABLE. */
  lemma ValidCreateFitsColumns(req: CreateRequest, id: nat)
    requires req.IsValid()
    ensures FitsColumns(req.NewRoom(id))
    ensures req.NewRoom(id).price > 0 && 1 <= req.NewRoom(id).maxOccupancy <= 10
    ensures req.status.None? ==> req.NewRoom(id).status == Available
    ensures exists i :: 0 <= i < |req.NewRoom(id).roomNumber| && req.NewRoom(id).roomNumber[i] > ' '
  {
    NotBlankIffVisibleCharacter(req.roomNumber);
  }

  /** A valid update keeps a room within the table's columns. */
  lemma ValidUpdateFitsColumns(r: Room, c: RoomChanges)
    requires FitsColumns(r) && UpdateIsValid(c)
    ensures FitsColumns(ApplyChanges(r, c))
  {
  }

  /** The search constraints order neither the prices nor the dates: a valid search may
      ask for a minimum price above its maximum, or a check-in after its check-out. */
  lemma SearchBoundsUnordered(today: int)
    ensures exists s: SearchRequest :: s.IsValid(today) && s.minPrice.Some? && s.maxPrice.Some?
              && s.minPrice.value > s.maxPrice.value
    ensures exists s: SearchRequest :: s.IsValid(today) && s.checkIn.value > s.checkOut.value
  {
    var prices := SearchRequest(None, None, None, Some(200), Some(100), Some(today), Some(today + 1));
    assert prices.IsValid(today);
    var dates := SearchRequest(None, None, None, None, None, Some(today + 5), Some(today + 1));
    assert dates.IsValid(today);
  }
}

/** The hotel record shared by the monolith and the room service, and the partial
    update both `updateHotel`s apply. */
module Hotels {
  import opened Wrappers

  datatype Hotel = Hotel(
    id: nat,
    name: string,
    description: Option<string>,
    address: string,
    city: string,
    country: string,
    postalCode: Option<string>,
    phoneNumber: Option<string>,
    email: Option<string>,
    website: Option<string>,
    starRating: Option<int>,
    amenities: Option<string>,
    imageUrl: Option<string>,
    active: bool)

  type HotelTable = map<nat, Hotel>

  /** Rows are keyed by their own id. */
  predicate Keyed(t: HotelTable)
  {
    forall id :: id in t ==> t[id].id == id
  }

  /** The fields of a hotel update request; a missing field means "keep". */
  datatype HotelChanges = HotelChanges(
    name: Option<string>,
    description: Option<string>,
    address: Option<string>,
    city: Option<string>,
    country: Option<string>,
    postalCode: Option<string>,
    phoneNumber: Option<string>,
    email: Option<string>,
    website: Option<string>,
    starRating: Option<int>,
    amenities: Option<string>,
    imageUrl: Option<string>,
    active: Option<bool>)

  const NoChanges := HotelChanges(None, None, None, None, None, None, None, None, None, None, None, None, None)

  /** The chain of `if (x != null) hotel.setX(x)` of both `updateHotel`s. */
  function ApplyChanges(h: Hotel, c: HotelChanges): (h': Hotel)
    ensures h'.id == h.id
  {
    Hotel(h.id,
          c.name.GetOr(h.name),
          c.description.Or(h.description),
          c.address.GetOr(h.address),
          c.city.GetOr(h.city),
          c.country.GetOr(h.country),
          c.postalCode.Or(h.postalCode),
          c.phoneNumber.Or(h.phoneNumber),
          c.email.Or(h.email),
          c.website.Or(h.website),
          c.starRating.Or(h.starRating),
          c.amenities.Or(h.amenities),
          c.imageUrl.Or(h.imageUrl),
          c.active.GetOr(h.active))
  }

  /** Null means keep: an empty update changes nothing, an update applied twice is
      applied once, and an omitted field keeps its value. */
  lemma ChangesKeepOmittedFields(h: Hotel, c: HotelChanges)
    ensures ApplyChanges(h, NoChanges) == h
    ensures ApplyChanges(ApplyChanges(h, c), c) == ApplyChanges(h, c)
    ensures c.active.None? ==> ApplyChanges(h, c).active == h.active
    ensures c.starRating.None? ==> ApplyChanges(h, c).starRating == h.starRating
    ensures c.name.None? ==> ApplyChanges(h, c).name == h.name
  {
  }
}

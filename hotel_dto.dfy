/** The monolith's hotel request bodies and their bean-validation constraints. The
    update request carries the same fields as `Hotels.HotelChanges` and is that type. */
module HotelRequests {
  import opened Wrappers
  import opened Text
  import opened Constraints
  import opened Hotels

  /** `@Pattern(regexp = "^[+]?[0-9]{10,20}$")`: an optional plus sign, then ten to
      twenty decimal digits and nothing else. */
  predicate MatchesPhonePattern(s: string)
  {
    var digits := if |s| > 0 && s[0] == '+' then s[1..] else s;
    10 <= |digits| <= 20 && AllDigits(digits)
  }

  /** The pattern constraint, which a missing phone number passes. */
  predicate PhoneOk(p: Option<string>)
  {
    p.Some? ==> MatchesPhonePattern(p.value)
  }

  /** The leading plus sign is optional: a digit string matches with or without it. */
  lemma PlusSignOptional(d: string)
    requires |d| == 0 || d[0] != '+'
    ensures MatchesPhonePattern("+" + d) <==> MatchesPhonePattern(d)
  {
    assert ("+" + d)[1..] == d;
  }

  /** A matching phone number is 10 to 21 characters long, and only its first character
      may be something other than a digit. */
  lemma PhoneShape(s: string)
    requires MatchesPhonePattern(s)
    ensures 10 <= |s| <= 21
    ensures forall i :: 1 <= i < |s| ==> IsDigit(s[i])
    ensures IsDigit(s[0]) || s[0] == '+'
  {
    if s[0] == '+' {
      forall i | 1 <= i < |s|
        ensures IsDigit(s[i])
      {
        assert s[i] == s[1..][i - 1];
      }
    }
  }

  datatype CreateRequest = CreateRequest(
    name: Option<string>,
    description: Option<string>,
    address: Option<string>,
    city: Option<string>,
    country: Option<string>,
    postalCode: Option<string>,
    phoneNumber: Option<string>,
    email: Option<string>,
    website: Option<string>,
    starRating: Option<int>,
    amenities: Option<string>,
    imageUrl: Option<string>,
    active: Option<bool>)
  {
    predicate IsValid()
    {
      && NotBlank(name) && SizeAtMost(name, 200)
      && SizeAtMost(description, 1000)
      && NotBlank(address) && SizeAtMost(address, 200)
      && NotBlank(city) && SizeAtMost(city, 100)
      && NotBlank(country) && SizeAtMost(country, 100)
      && SizeAtMost(postalCode, 20)
      && PhoneOk(phoneNumber)
      && SizeAtMost(email, 150)
      && SizeAtMost(website, 200)
      && Between(starRating, 1, 5)
      && SizeAtMost(amenities, 500)
      && SizeAtMost(imageUrl, 500)
    }

    /** The fields the service copies into a new row without a null check. */
    predicate HasRequiredFields()
    {
      name.Some? && address.Some? && city.Some? && country.Some?
    }

    /** The same values as an update request. */
    function AsChanges(): HotelChanges
    {
      HotelChanges(name, description, address, city, country, postalCode, phoneNumber,
                   email, website, starRating, amenities, imageUrl, active)
    }
  }

  /** The update request: every field optional, the create bounds when present. */
  predicate UpdateIsValid(c: HotelChanges)
  {
    && SizeAtMost(c.name, 200)
    && SizeAtMost(c.description, 1000)
    && SizeAtMost(c.address, 200)
    && SizeAtMost(c.city, 100)
    && SizeAtMost(c.country, 100)
    && SizeAtMost(c.postalCode, 20)
    && PhoneOk(c.phoneNumber)
    && SizeAtMost(c.email, 150)
    && SizeAtMost(c.website, 200)
    && Between(c.starRating, 1, 5)
    && SizeAtMost(c.amenities, 500)
    && SizeAtMost(c.imageUrl, 500)
  }

  datatype SearchRequest = SearchRequest(
    searchTerm: Option<string>,
    city: Option<string>,
    country: Option<string>,
    minStarRating: Option<int>,
    onlyWithAvailableRooms: Option<bool>)
  {
    predicate IsValid()
    {
      Between(minStarRating, 1, 5)
    }
  }

  /** A valid create request is a valid update request, and the update request may leave
      out the name, address, city and country the create request requires. */
  lemma CreateBoundsImplyUpdateBounds(req: CreateRequest)
    ensures req.IsValid() ==> req.HasRequiredFields() && UpdateIsValid(req.AsChanges())
    ensures UpdateIsValid(NoChanges) && !CreateRequest(None, None, None, None, None, None, None,
                                                       None, None, None, None, None, None).IsValid()
  {
  }

  /** In a valid create request the name, address, city and country each hold a visible
      character, and the star rating, when given, is 1 to 5. */
  lemma ValidCreateRequestShape(req: CreateRequest)
    requires req.IsValid()
    ensures exists i :: 0 <= i < |req.name.value| && req.name.value[i] > ' '
    ensures exists i :: 0 <= i < |req.city.value| && req.city.value[i] > ' '
    ensures exists i :: 0 <= i < |req.country.value| && req.country.value[i] > ' '
    ensures exists i :: 0 <= i < |req.address.value| && req.address.value[i] > ' '
    ensures req.starRating.Some? ==> 1 <= req.starRating.value <= 5
  {
    NotBlankIffVisibleCharacter(req.name);
    NotBlankIffVisibleCharacter(req.city);
    NotBlankIffVisibleCharacter(req.country);
    NotBlankIffVisibleCharacter(req.address);
  }
}

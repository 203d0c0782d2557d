/** The monolith's booking queries. The table is a map from id to row; a JPQL
    selection is the set of rows matching its WHERE clause, and `ORDER BY checkInDate`
    is realised by `OrderByCheckIn`. */
module MonolithBookingRepository {
  import opened Wrappers
  import opened Bookings
  import opened BookingRules

  type Table = map<nat, Booking>

  /** Rows are keyed by their own id. */
  predicate Keyed(t: Table)
  {
    forall id :: id in t ==> t[id].id == id
  }

  /** The `unique = true` confirmation-number column of the booking record, which
      `findByConfirmationNumber` returning one `Optional` relies on. */
  predicate UniqueConfirmationNumbers(t: Table)
  {
    forall i, j :: i in t && j in t && i != j ==> t[i].confirmationNumber != t[j].confirmationNumber
  }

  predicate NumberInUse(t: Table, number: string)
  {
    exists j :: j in t && t[j].confirmationNumber == number
  }

  /** The status list `IN ('CONFIRMED', 'CHECKED_IN', 'PENDING')` of the overlap queries. */
  predicate Holds(s: BookingStatus)
  {
    s == Confirmed || s == CheckedIn || s == Pending
  }

  /** A holding booking is exactly an active one. */
  lemma HoldsIffActive(b: Booking)
    ensures Holds(b.status) <==> b.IsActive()
  {
  }

  /** The WHERE clause shared by `findOverlappingBookings` and `isRoomAvailable`. */
  predicate Blocks(b: Booking, roomId: nat, checkIn: int, checkOut: int)
  {
    b.roomId == roomId && Holds(b.status) && Overlaps(b.checkIn, b.checkOut, checkIn, checkOut)
  }

  /** `findOverlappingBookings(roomId, checkIn, checkOut)`. */
  function FindOverlappingBookings(t: Table, roomId: nat, checkIn: int, checkOut: int): set<Booking>
  {
    set id | id in t && Blocks(t[id], roomId, checkIn, checkOut) :: t[id]
  }

  /** `isRoomAvailable`: `COUNT(b) = 0` over the same WHERE clause. */
  function IsRoomAvailable(t: Table, roomId: nat, checkIn: int, checkOut: int): (r: bool)
    ensures r <==> forall id :: id in t ==> !Blocks(t[id], roomId, checkIn, checkOut)
  {
    var matching := set id | id in t && Blocks(t[id], roomId, checkIn, checkOut);
    assert forall id :: id in t && Blocks(t[id], roomId, checkIn, checkOut) ==> id in matching;
    |matching| == 0
  }

  /** The room is available exactly when the overlap query returns nothing. */
  lemma AvailableIffNoOverlapping(t: Table, roomId: nat, checkIn: int, checkOut: int)
    ensures IsRoomAvailable(t, roomId, checkIn, checkOut)
            <==> FindOverlappingBookings(t, roomId, checkIn, checkOut) == {}
  {
    if !IsRoomAvailable(t, roomId, checkIn, checkOut) {
      var id :| id in t && Blocks(t[id], roomId, checkIn, checkOut);
      assert t[id] in FindOverlappingBookings(t, roomId, checkIn, checkOut);
    }
  }

  /** `findActiveBookingsByUserId` before ordering. */
  function ActiveOfUser(t: Table, userId: nat): set<Booking>
  {
    set id | id in t && t[id].userId == userId
                     && t[id].status in {Pending, Confirmed, CheckedIn} :: t[id]
  }

  /** `findUpcomingBookings(date)` before ordering. */
  function Upcoming(t: Table, date: int): set<Booking>
  {
    set id | id in t && t[id].checkIn > date && t[id].status in {Pending, Confirmed} :: t[id]
  }

  /** `findBookingsForCheckInToday(date)`. */
  function CheckInsOn(t: Table, date: int): set<Booking>
  {
    set id | id in t && t[id].checkIn == date && t[id].status == Confirmed :: t[id]
  }

  /** `findBookingsForCheckOutToday(date)`. */
  function CheckOutsOn(t: Table, date: int): set<Booking>
  {
    set id | id in t && t[id].checkOut == date && t[id].status == CheckedIn :: t[id]
  }

  /** Every booking listed for check-in today passes the check-in guard today, every one
      listed for check-out today passes the check-out guard, and every upcoming booking
      can still be cancelled. */
  lemma TodayListsPassTheirGuards(t: Table, today: int, b: Booking)
    ensures b in CheckInsOn(t, today) ==> CheckIn(b, today).Ok?
    ensures b in CheckOutsOn(t, today) ==> CheckOut(b).Ok?
    ensures b in Upcoming(t, today) ==> Cancel(b, today, None).Ok? && b.checkIn > today
  {
  }

  predicate SortedByCheckIn(s: seq<Booking>)
  {
    forall i, j :: 0 <= i < j < |s| ==> s[i].checkIn <= s[j].checkIn
  }

  /** A booking with the earliest check-in of a non-empty set. */
  lemma {:induction false} EarliestCheckIn(s: set<Booking>) returns (m: Booking)
    requires s != {}
    ensures m in s && forall c :: c in s ==> m.checkIn <= c.checkIn
    decreases |s|
  {
    var x :| x in s;
    if s == {x} {
      m := x;
    } else {
      var rest := s - {x};
      var y := EarliestCheckIn(rest);
      m := if x.checkIn <= y.checkIn then x else y;
    }
  }

  /** `ORDER BY b.checkInDate ASC`: lists a set once, by ascending check-in; the order
      among equal check-in dates is left open, as the query leaves it. */
  method OrderByCheckIn(s: set<Booking>) returns (r: seq<Booking>)
    ensures SortedByCheckIn(r)
    ensures |r| == |s|
    ensures forall b :: b in r <==> b in s
  {
    r := [];
    var rest := s;
    while rest != {}
      invariant rest <= s
      invariant forall b :: b in s <==> b in rest || b in r
      invariant forall b :: b in r ==> b !in rest
      invariant |r| + |rest| == |s|
      invariant SortedByCheckIn(r)
      invariant forall i, c :: 0 <= i < |r| && c in rest ==> r[i].checkIn <= c.checkIn
      decreases |rest|
    {
      ghost var earliest := EarliestCheckIn(rest);
      var m :| m in rest && forall c :: c in rest ==> m.checkIn <= c.checkIn;
      r := r + [m];
      rest := rest - {m};
    }
  }

  /** `findActiveBookingsByUserId(userId)`: the user's PENDING, CONFIRMED and CHECKED_IN
      bookings, each once, by ascending check-in. */
  method FindActiveBookingsByUserId(t: Table, userId: nat) returns (r: seq<Booking>)
    ensures SortedByCheckIn(r)
    ensures forall b :: b in r <==> b in t.Values && b.userId == userId && b.IsActive()
    ensures |r| == |ActiveOfUser(t, userId)|
  {
    r := OrderByCheckIn(ActiveOfUser(t, userId));
  }

  /** `findUpcomingBookings(date)`: PENDING and CONFIRMED bookings starting after the
      date, each once, by ascending check-in. */
  method FindUpcomingBookings(t: Table, date: int) returns (r: seq<Booking>)
    ensures SortedByCheckIn(r)
    ensures forall b :: b in r <==> b in t.Values && b.checkIn > date && b.status in {Pending, Confirmed}
    ensures |r| == |Upcoming(t, date)|
  {
    r := OrderByCheckIn(Upcoming(t, date));
  }

  /** No two holding bookings of the same room overlap: the property the availability
      check before every create exists to keep. */
  ghost predicate NoDoubleBooking(t: Table)
  {
    forall i, j :: i in t && j in t && i != j && t[i].roomId == t[j].roomId
      && Holds(t[i].status) && Holds(t[j].status)
      ==> !Overlaps(t[i].checkIn, t[i].checkOut, t[j].checkIn, t[j].checkOut)
  }

  /** Writing a row that no other holding booking of its room blocks keeps the table free
      of double bookings; this covers a create that passed `isRoomAvailable` and an
      update whose new dates passed the self-excluding overlap check. */
  lemma {:induction false} WriteUnblockedKeepsNoDoubleBooking(t: Table, id: nat, b: Booking)
    requires NoDoubleBooking(t)
    requires forall j :: j in t && j != id ==> !(Holds(b.status) && Blocks(t[j], b.roomId, b.checkIn, b.checkOut))
    ensures NoDoubleBooking(t[id := b])
  {
    var t' := t[id := b];
    forall i, j | i in t' && j in t' && i != j && t'[i].roomId == t'[j].roomId
      && Holds(t'[i].status) && Holds(t'[j].status)
      ensures !Overlaps(t'[i].checkIn, t'[i].checkOut, t'[j].checkIn, t'[j].checkOut)
    {
      if i == id {
        assert !Blocks(t[j], b.roomId, b.checkIn, b.checkOut);
      } else if j == id {
        assert !Blocks(t[i], b.roomId, b.checkIn, b.checkOut);
      }
    }
  }

  /** Writing a row that keeps its room and dates and holds no more than before (a
      guarded transition) keeps the table free of double bookings. */
  lemma {:induction false} WriteSameStayKeepsNoDoubleBooking(t: Table, id: nat, b: Booking)
    requires NoDoubleBooking(t) && id in t
    requires b.roomId == t[id].roomId && b.checkIn == t[id].checkIn && b.checkOut == t[id].checkOut
    requires Holds(b.status) ==> Holds(t[id].status)
    ensures NoDoubleBooking(t[id := b])
  {
    var t' := t[id := b];
    forall i, j | i in t' && j in t' && i != j && t'[i].roomId == t'[j].roomId
      && Holds(t'[i].status) && Holds(t'[j].status)
      ensures !Overlaps(t'[i].checkIn, t'[i].checkOut, t'[j].checkIn, t'[j].checkOut)
    {
      assert i in t && j in t;
    }
  }

  /** Removing rows cannot create a double booking. */
  lemma RemoveKeepsNoDoubleBooking(t: Table, id: nat)
    requires NoDoubleBooking(t)
    ensures NoDoubleBooking(t - {id})
  {
  }
}

/** The booking microservice's queries. Its availability check and its overlap query use
    NOT IN lists that differ from each other. */
module BookingMicroserviceRepository {
  import opened Bookings
  import opened BookingRules
  import M = MonolithBookingRepository

  type Table = map<nat, Booking>

  /** `isRoomAvailable`: no row of the room with status NOT IN ('CANCELLED',
      'CHECKED_OUT', 'NO_SHOW') overlaps the dates. */
  function IsRoomAvailable(t: Table, roomId: nat, checkIn: int, checkOut: int): (r: bool)
    ensures r <==> forall id :: id in t && t[id].roomId == roomId && t[id].IsActive()
                                ==> !Overlaps(t[id].checkIn, t[id].checkOut, checkIn, checkOut)
  {
    var matching := set id | id in t && t[id].roomId == roomId
                             && t[id].status !in {Cancelled, CheckedOut, NoShow}
                             && Overlaps(t[id].checkIn, t[id].checkOut, checkIn, checkOut);
    assert forall id :: (id in t && t[id].roomId == roomId && t[id].IsActive()
                         && Overlaps(t[id].checkIn, t[id].checkOut, checkIn, checkOut)) ==> id in matching;
    |matching| == 0
  }

  /** `findOverlappingBookings`: rows of the room with status NOT IN ('CANCELLED',
      'NO_SHOW') that overlap the dates; a CHECKED_OUT row is included. */
  function FindOverlappingBookings(t: Table, roomId: nat, checkIn: int, checkOut: int): set<Booking>
  {
    set id | id in t && t[id].roomId == roomId && t[id].status !in {Cancelled, NoShow}
                     && Overlaps(t[id].checkIn, t[id].checkOut, checkIn, checkOut) :: t[id]
  }

  /** `findActiveBookingsByUserId` (no ORDER BY here). */
  function FindActiveBookingsByUserId(t: Table, userId: nat): (r: set<Booking>)
    ensures forall b :: b in r <==> b in t.Values && b.userId == userId && b.IsActive()
  {
    set id | id in t && t[id].userId == userId && t[id].status in {Pending, Confirmed, CheckedIn} :: t[id]
  }

  /** Over the six statuses, NOT IN ('CANCELLED', 'CHECKED_OUT', 'NO_SHOW') is IN
      ('PENDING', 'CONFIRMED', 'CHECKED_IN'): the availability check agrees with the
      monolith's on every table, and with the active-bookings query on every row. */
  lemma AvailabilityAgreesWithMonolith(t: Table, roomId: nat, checkIn: int, checkOut: int)
    ensures IsRoomAvailable(t, roomId, checkIn, checkOut) == M.IsRoomAvailable(t, roomId, checkIn, checkOut)
  {
  }

  /** A CHECKED_OUT stay is ignored by the availability check of a create, which answers
      as if the row were not stored, but is reported by the overlap query of an update
      whenever it overlaps the dates. */
  lemma CheckedOutBlocksUpdateNotCreate(t: Table, id: nat, checkIn: int, checkOut: int)
    requires id in t && t[id].status == CheckedOut
    ensures IsRoomAvailable(t, t[id].roomId, checkIn, checkOut)
            == IsRoomAvailable(t - {id}, t[id].roomId, checkIn, checkOut)
    ensures t[id] in FindOverlappingBookings(t, t[id].roomId, checkIn, checkOut)
            <==> Overlaps(t[id].checkIn, t[id].checkOut, checkIn, checkOut)
  {
    var rest := t - {id};
    forall j | j in t && t[j].roomId == t[id].roomId && t[j].IsActive()
      ensures j in rest
    {
      assert t[j].status != CheckedOut;
    }
  }

  /** Every row the availability check counts is also reported by the overlap query,
      so a booking that passes the overlap query (ignoring itself) also passes the
      availability check (ignoring itself). */
  lemma OverlapQueryCoversAvailability(t: Table, roomId: nat, checkIn: int, checkOut: int)
    ensures M.FindOverlappingBookings(t, roomId, checkIn, checkOut)
            <= FindOverlappingBookings(t, roomId, checkIn, checkOut)
  {
  }
}

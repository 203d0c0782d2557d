/** The monolith's `BookingService`: each operation loads a booking, runs its checks in
    the order the service runs them, and either throws (nothing is saved: the method is
    transactional) or writes the one changed row. Every operation is a method on the
    `Database`, proved against a function that states its outcome; the properties of
    the outcome are lemmas about those functions. */
module MonolithBookingService {
  import opened Wrappers
  import opened Text
  import opened Bookings
  import opened BookingRules
  import opened BookingRequests
  import opened Rooms
  import opened Users
  import opened MonolithStore
  import R = MonolithBookingRepository

  /** The outcome of `createBooking`: date check, user, room, room status, availability
      and guest count, in that order; the unique column then refuses a confirmation
      number already stored. A new booking is CONFIRMED and PAID, priced at the room
      rate times the nights, with `id` the next identity value. */
  function CreateOutcome(bookings: R.Table, rooms: RoomTable, users: UserTable,
                         req: CreateRequest, today: int, id: nat, uuid: string): (r: Result<Booking>)
    requires req.HasRequiredFields() && IsUuidText(uuid)
    ensures r.Ok? <==>
              && ValidateBookingDates(req.checkIn.value, req.checkOut.value, today).None?
              && req.userId.value in users && req.roomId.value in rooms
              && rooms[req.roomId.value].status == Available
              && R.IsRoomAvailable(bookings, req.roomId.value, req.checkIn.value, req.checkOut.value)
              && req.guests.value <= rooms[req.roomId.value].maxOccupancy
              && !R.NumberInUse(bookings, ConfirmationNumber(uuid))
    ensures ValidateBookingDates(req.checkIn.value, req.checkOut.value, today).Some? ==>
              r == Err(Business(ValidateBookingDates(req.checkIn.value, req.checkOut.value, today).value))
    ensures ValidateBookingDates(req.checkIn.value, req.checkOut.value, today).None? ==>
              (req.userId.value !in users ==> r == Err(NotFound(UserEntity)))
              && (req.userId.value in users && req.roomId.value !in rooms ==> r == Err(NotFound(RoomEntity)))
    ensures ValidateBookingDates(req.checkIn.value, req.checkOut.value, today).None?
            && req.userId.value in users && req.roomId.value in rooms ==>
              var room := rooms[req.roomId.value];
              var free := R.IsRoomAvailable(bookings, req.roomId.value, req.checkIn.value, req.checkOut.value);
              && (room.status != Available ==> r == Err(Business(RoomNotAvailable)))
              && (room.status == Available && !free ==> r == Err(Business(RoomAlreadyBooked)))
              && (room.status == Available && free && req.guests.value > room.maxOccupancy
                  ==> r == Err(Business(TooManyGuests)))
              && (room.status == Available && free && req.guests.value <= room.maxOccupancy
                  && R.NumberInUse(bookings, ConfirmationNumber(uuid))
                  ==> r == Err(ConstraintViolation))
    ensures r.Ok? ==>
              && r.value.id == id && r.value.userId == req.userId.value && r.value.roomId == req.roomId.value
              && r.value.checkIn == req.checkIn.value && r.value.checkOut == req.checkOut.value
              && r.value.guests == req.guests.value
              && 1 <= r.value.NumberOfNights() <= MaxNights
              && r.value.totalPrice == rooms[req.roomId.value].price * r.value.NumberOfNights()
              && r.value.status == Confirmed && r.value.paymentStatus == Paid
              && r.value.paidAmount == Some(r.value.totalPrice)
              && r.value.paymentMethod == req.paymentMethod
              && r.value.specialRequests == req.specialRequests
              && r.value.cancelledAt.None? && r.value.cancellationReason.None?
              && r.value.confirmationNumber == ConfirmationNumber(uuid)
  {
    var checkIn, checkOut := req.checkIn.value, req.checkOut.value;
    var problem := ValidateBookingDates(checkIn, checkOut, today);
    if problem.Some? then Err(Business(problem.value))
    else if req.userId.value !in users then Err(NotFound(UserEntity))
    else if req.roomId.value !in rooms then Err(NotFound(RoomEntity))
    else
      var room := rooms[req.roomId.value];
      if room.status != Available then Err(Business(RoomNotAvailable))
      else if !R.IsRoomAvailable(bookings, req.roomId.value, checkIn, checkOut) then Err(Business(RoomAlreadyBooked))
      else if req.guests.value > room.maxOccupancy then Err(Business(TooManyGuests))
      else if R.NumberInUse(bookings, ConfirmationNumber(uuid)) then Err(ConstraintViolation)
      else
        var total := room.price * (checkOut - checkIn);
        Ok(Booking(id, req.userId.value, req.roomId.value, checkIn, checkOut, req.guests.value, total,
                   Confirmed, req.specialRequests, ConfirmationNumber(uuid), Paid, req.paymentMethod,
                   Some(total), None, None))
  }

  /** A created booking never double-books its room: the availability check ran over
      exactly the bookings that could clash with it. */
  lemma CreateKeepsNoDoubleBooking(bookings: R.Table, rooms: RoomTable, users: UserTable,
                                   req: CreateRequest, today: int, id: nat, uuid: string)
    requires req.HasRequiredFields() && IsUuidText(uuid)
    requires R.NoDoubleBooking(bookings)
    requires CreateOutcome(bookings, rooms, users, req, today, id, uuid).Ok?
    ensures R.NoDoubleBooking(bookings[id := CreateOutcome(bookings, rooms, users, req, today, id, uuid).value])
  {
    var b := CreateOutcome(bookings, rooms, users, req, today, id, uuid).value;
    R.WriteUnblockedKeepsNoDoubleBooking(bookings, id, b);
  }

  method CreateBooking(db: Database, req: CreateRequest, today: int, uuid: string) returns (r: Result<Booking>)
    requires db.Valid() && req.HasRequiredFields() && IsUuidText(uuid)
    modifies db
    ensures db.Valid()
    ensures r == CreateOutcome(old(db.bookings), old(db.rooms), old(db.users), req, today, old(db.nextId), uuid)
    ensures r.Err? ==> unchanged(db)
    ensures r.Ok? ==> r.value.id !in old(db.bookings) && db.bookings == old(db.bookings)[r.value.id := r.value]
    ensures db.rooms == old(db.rooms) && db.hotels == old(db.hotels) && db.users == old(db.users)
    ensures old(R.NoDoubleBooking(db.bookings)) ==> R.NoDoubleBooking(db.bookings)
  {
    var checkIn, checkOut := req.checkIn.value, req.checkOut.value;
    var problem := ValidateBookingDates(checkIn, checkOut, today);
    if problem.Some? {
      return Err(Business(problem.value));
    }
    if req.userId.value !in db.users {
      return Err(NotFound(UserEntity));
    }
    if req.roomId.value !in db.rooms {
      return Err(NotFound(RoomEntity));
    }
    var room := db.rooms[req.roomId.value];
    if room.status != Available {
      return Err(Business(RoomNotAvailable));
    }
    if !R.IsRoomAvailable(db.bookings, req.roomId.value, checkIn, checkOut) {
      return Err(Business(RoomAlreadyBooked));
    }
    if req.guests.value > room.maxOccupancy {
      return Err(Business(TooManyGuests));
    }
    var total := room.price * (checkOut - checkIn);
    var number := ConfirmationNumber(uuid);
    if R.NumberInUse(db.bookings, number) {
      return Err(ConstraintViolation);
    }
    ghost var before := db.bookings;
    var id := db.Allocate();
    var booking := Booking(id, req.userId.value, req.roomId.value, checkIn, checkOut, req.guests.value, total,
                           Confirmed, req.specialRequests, number, Paid, req.paymentMethod,
                           Some(total), None, None);
    db.bookings := db.bookings[id := booking];
    r := Ok(booking);
    if R.NoDoubleBooking(before) {
      CreateKeepsNoDoubleBooking(before, db.rooms, db.users, req, today, id, uuid);
    }
  }

  /** Whether `updateBooking` runs the date and overlap checks: when the request carries
      a date. The guarded variant also runs them when the request turns a booking that
      holds no room (NO_SHOW) back into one that does. */
  predicate ChecksDates(b: Booking, req: UpdateRequest, guarded: bool)
  {
    || req.checkIn.Some? || req.checkOut.Some?
    || (guarded && req.status.Some? && R.Holds(req.status.value) && !R.Holds(b.status))
  }

  /** The self-excluding conflict test: an overlapping booking other than this one. */
  predicate HasConflict(bookings: R.Table, b: Booking, checkIn: int, checkOut: int)
  {
    exists o :: o in R.FindOverlappingBookings(bookings, b.roomId, checkIn, checkOut) && o.id != b.id
  }

  /** The stay an update asks for passes the date check and overlaps no other booking. */
  predicate DatesAccepted(bookings: R.Table, b: Booking, req: UpdateRequest, today: int)
  {
    var newIn, newOut := req.checkIn.GetOr(b.checkIn), req.checkOut.GetOr(b.checkOut);
    ValidateBookingDates(newIn, newOut, today).None? && !HasConflict(bookings, b, newIn, newOut)
  }

  /** The outcome of `updateBooking` on a stored booking `id` (as written when `guarded`
      is false): the terminal-status guard, then, when dates are given, the date check,
      the overlap check and a new price; then the guest limit; then every other
      non-null field overwrites its column, status and payment status included. */
  function UpdateOutcome(bookings: R.Table, rooms: RoomTable, id: nat, req: UpdateRequest,
                         today: int, guarded: bool): (r: Result<Booking>)
    requires R.Keyed(bookings) && forall j :: j in bookings ==> bookings[j].roomId in rooms
    ensures id !in bookings <==> r == Err(NotFound(BookingEntity))
    ensures id in bookings && bookings[id].status in {Cancelled, CheckedOut} ==> r == Err(Business(NotUpdatable))
    ensures r.Ok? <==>
              && id in bookings && bookings[id].status !in {Cancelled, CheckedOut}
              && (ChecksDates(bookings[id], req, guarded) ==> DatesAccepted(bookings, bookings[id], req, today))
              && (req.guests.Some? ==> req.guests.value <= rooms[bookings[id].roomId].maxOccupancy)
    ensures id in bookings && bookings[id].status !in {Cancelled, CheckedOut}
            && ChecksDates(bookings[id], req, guarded) ==>
              var b := bookings[id];
              var newIn, newOut := req.checkIn.GetOr(b.checkIn), req.checkOut.GetOr(b.checkOut);
              && (ValidateBookingDates(newIn, newOut, today).Some? ==>
                    r == Err(Business(ValidateBookingDates(newIn, newOut, today).value)))
              && (ValidateBookingDates(newIn, newOut, today).None? && HasConflict(bookings, b, newIn, newOut) ==>
                    r == Err(Business(DatesUnavailable)))
    ensures id in bookings && bookings[id].status !in {Cancelled, CheckedOut}
            && (ChecksDates(bookings[id], req, guarded) ==> DatesAccepted(bookings, bookings[id], req, today))
            && req.guests.Some? && req.guests.value > rooms[bookings[id].roomId].maxOccupancy
            ==> r == Err(Business(TooManyGuests))
    ensures r.Ok? ==> id in bookings && bookings[id].status !in {Cancelled, CheckedOut}
    ensures r.Ok? ==> var b := bookings[id];
              && r.value.id == id && r.value.userId == b.userId && r.value.roomId == b.roomId
              && r.value.confirmationNumber == b.confirmationNumber
              && r.value.cancelledAt == b.cancelledAt && r.value.cancellationReason == b.cancellationReason
    ensures r.Ok? && !ChecksDates(bookings[id], req, guarded) ==>
              var b := bookings[id];
              r.value.checkIn == b.checkIn && r.value.checkOut == b.checkOut && r.value.totalPrice == b.totalPrice
    ensures r.Ok? && ChecksDates(bookings[id], req, guarded) ==>
              var b := bookings[id];
              && r.value.checkIn == req.checkIn.GetOr(b.checkIn) && r.value.checkOut == req.checkOut.GetOr(b.checkOut)
              && ValidateBookingDates(r.value.checkIn, r.value.checkOut, today).None?
              && r.value.totalPrice == rooms[b.roomId].price * r.value.NumberOfNights()
              && forall j :: j in bookings && j != id ==> !R.Blocks(bookings[j], b.roomId, r.value.checkIn, r.value.checkOut)
    ensures r.Ok? ==> var b := bookings[id];
              && (req.guests.Some? ==> r.value.guests == req.guests.value <= rooms[b.roomId].maxOccupancy)
              && (req.guests.None? ==> r.value.guests == b.guests)
    ensures r.Ok? ==> var b := bookings[id];
              && r.value.status == req.status.GetOr(b.status)
              && r.value.paymentStatus == req.paymentStatus.GetOr(b.paymentStatus)
              && r.value.specialRequests == req.specialRequests.Or(b.specialRequests)
              && r.value.paymentMethod == req.paymentMethod.Or(b.paymentMethod)
              && r.value.paidAmount == req.paidAmount.Or(b.paidAmount)
  {
    if id !in bookings then Err(NotFound(BookingEntity))
    else
      var b := bookings[id];
      if b.status == Cancelled || b.status == CheckedOut then Err(Business(NotUpdatable))
      else
        var room := rooms[b.roomId];
        var dated: Result<Booking> :=
          if !ChecksDates(b, req, guarded) then Ok(b)
          else
            var newIn, newOut := req.checkIn.GetOr(b.checkIn), req.checkOut.GetOr(b.checkOut);
            var problem := ValidateBookingDates(newIn, newOut, today);
            if problem.Some? then Err(Business(problem.value))
            else if HasConflict(bookings, b, newIn, newOut) then Err(Business(DatesUnavailable))
            else Ok(b.(checkIn := newIn, checkOut := newOut, totalPrice := room.price * (newOut - newIn)));
        if dated.Err? then dated
        else if req.guests.Some? && req.guests.value > room.maxOccupancy then Err(Business(TooManyGuests))
        else
          var c := dated.value;
          Ok(c.(guests := req.guests.GetOr(c.guests),
                specialRequests := req.specialRequests.Or(c.specialRequests),
                status := req.status.GetOr(c.status),
                paymentStatus := req.paymentStatus.GetOr(c.paymentStatus),
                paymentMethod := req.paymentMethod.Or(c.paymentMethod),
                paidAmount := req.paidAmount.Or(c.paidAmount)))
  }

  /** An update that checked its dates, or that leaves the booking no more holding than
      it was, cannot double-book the room. */
  lemma UpdateKeepsNoDoubleBookingWhenChecked(bookings: R.Table, rooms: RoomTable, id: nat,
                                              req: UpdateRequest, today: int, guarded: bool)
    requires R.Keyed(bookings) && forall j :: j in bookings ==> bookings[j].roomId in rooms
    requires R.NoDoubleBooking(bookings)
    requires UpdateOutcome(bookings, rooms, id, req, today, guarded).Ok?
    requires ChecksDates(bookings[id], req, guarded)
             || !R.Holds(UpdateOutcome(bookings, rooms, id, req, today, guarded).value.status)
             || R.Holds(bookings[id].status)
    ensures R.NoDoubleBooking(bookings[id := UpdateOutcome(bookings, rooms, id, req, today, guarded).value])
  {
    var b := UpdateOutcome(bookings, rooms, id, req, today, guarded).value;
    if ChecksDates(bookings[id], req, guarded) || !R.Holds(b.status) {
      R.WriteUnblockedKeepsNoDoubleBooking(bookings, id, b);
    } else {
      R.WriteSameStayKeepsNoDoubleBooking(bookings, id, b);
    }
  }

  /** As written, `updateBooking` can double-book a room: a NO_SHOW booking is not
      terminal for the update guard, and setting its status back to CONFIRMED without
      new dates skips the overlap check, while another booking now holds the room. */
  lemma UpdateReopensNoShow()
    ensures var room := Room(5, 1, "101", Double, 10000, 2, None, None, None, None, Available);
            var holder := Booking(1, 7, 5, 10, 12, 2, 20000, Confirmed, None, "BK-00000001", Paid,
                                  None, Some(20000), None, None);
            var noShow := Booking(2, 8, 5, 10, 12, 2, 20000, NoShow, None, "BK-00000002", Paid,
                                  None, Some(20000), None, None);
            var bookings := map[1 := holder, 2 := noShow];
            var req := UpdateRequest(None, None, None, None, Some(Confirmed), None, None, None);
            && R.Keyed(bookings) && R.NoDoubleBooking(bookings)
            && UpdateOutcome(bookings, map[5 := room], 2, req, 11, false).Ok?
            && !R.NoDoubleBooking(bookings[2 := UpdateOutcome(bookings, map[5 := room], 2, req, 11, false).value])
  {
    var room := Room(5, 1, "101", Double, 10000, 2, None, None, None, None, Available);
    var holder := Booking(1, 7, 5, 10, 12, 2, 20000, Confirmed, None, "BK-00000001", Paid,
                          None, Some(20000), None, None);
    var noShow := Booking(2, 8, 5, 10, 12, 2, 20000, NoShow, None, "BK-00000002", Paid,
                          None, Some(20000), None, None);
    var bookings := map[1 := holder, 2 := noShow];
    var req := UpdateRequest(None, None, None, None, Some(Confirmed), None, None, None);
    var after := bookings[2 := UpdateOutcome(bookings, map[5 := room], 2, req, 11, false).value];
    assert after[1] == holder && after[2].status == Confirmed && after[2].checkIn == 10;
  }

  /** With the overlap check also run on reactivation, every accepted update keeps the
      room free of double bookings. */
  lemma GuardedUpdateKeepsNoDoubleBooking(bookings: R.Table, rooms: RoomTable, id: nat,
                                          req: UpdateRequest, today: int)
    requires R.Keyed(bookings) && forall j :: j in bookings ==> bookings[j].roomId in rooms
    requires R.NoDoubleBooking(bookings)
    requires UpdateOutcome(bookings, rooms, id, req, today, true).Ok?
    ensures R.NoDoubleBooking(bookings[id := UpdateOutcome(bookings, rooms, id, req, today, true).value])
  {
    UpdateKeepsNoDoubleBookingWhenChecked(bookings, rooms, id, req, today, true);
  }

  /** `updateBooking`, with the overlap check also run when a NO_SHOW booking is made
      to hold its room again (`UpdateOutcome` with `guarded` false is the update as the
      source writes it): no accepted update double-books a room. */
  method UpdateBooking(db: Database, id: nat, req: UpdateRequest, today: int) returns (r: Result<Booking>)
    requires db.Valid()
    modifies db
    ensures db.Valid()
    ensures r == UpdateOutcome(old(db.bookings), old(db.rooms), id, req, today, true)
    ensures r.Ok? ==> db.bookings == old(db.bookings)[id := r.value]
    ensures r.Err? ==> db.bookings == old(db.bookings)
    ensures db.rooms == old(db.rooms) && db.hotels == old(db.hotels) && db.users == old(db.users)
    ensures db.nextId == old(db.nextId)
    ensures old(R.NoDoubleBooking(db.bookings)) ==> R.NoDoubleBooking(db.bookings)
  {
    ghost var before := db.bookings;
    r := UpdateOutcome(db.bookings, db.rooms, id, req, today, true);
    if r.Ok? {
      if R.NoDoubleBooking(before) {
        GuardedUpdateKeepsNoDoubleBooking(before, db.rooms, id, req, today);
      }
      db.bookings := db.bookings[id := r.value];
    }
  }

  /** A guarded lifecycle request on stored booking `id`. */
  function TransitionOutcome(bookings: R.Table, id: nat, op: Op): (r: Result<Booking>)
    ensures id !in bookings <==> r == Err(NotFound(BookingEntity))
    ensures r.Ok? ==> id in bookings && SameStay(bookings[id], r.value)
                      && Rank(r.value.status) > Rank(bookings[id].status)
  {
    if id !in bookings then Err(NotFound(BookingEntity))
    else
      var r := Apply(bookings[id], op);
      if r.Ok? then ApplyAdvances(bookings[id], op); r
      else r
  }

  /** A guarded transition never double-books: it keeps the stay and only moves a
      booking forward, so it holds the room only if it already did. */
  lemma TransitionKeepsNoDoubleBooking(bookings: R.Table, id: nat, op: Op)
    requires R.NoDoubleBooking(bookings)
    requires TransitionOutcome(bookings, id, op).Ok?
    ensures R.NoDoubleBooking(bookings[id := TransitionOutcome(bookings, id, op).value])
  {
    var b := TransitionOutcome(bookings, id, op).value;
    assert R.Holds(b.status) ==> Rank(b.status) <= 2;
    R.WriteSameStayKeepsNoDoubleBooking(bookings, id, b);
  }

  /** `cancelBooking`, `confirmBooking`, and the booking half of `checkInBooking` and
      `checkOutBooking`: load, guard, write the one row. */
  method Transition(db: Database, id: nat, op: Op) returns (r: Result<Booking>)
    requires db.Valid()
    modifies db
    ensures db.Valid()
    ensures r == TransitionOutcome(old(db.bookings), id, op)
    ensures r.Ok? ==> db.bookings == old(db.bookings)[id := r.value]
    ensures r.Err? ==> db.bookings == old(db.bookings)
    ensures db.rooms == old(db.rooms) && db.hotels == old(db.hotels) && db.users == old(db.users)
    ensures db.nextId == old(db.nextId)
    ensures old(R.NoDoubleBooking(db.bookings)) ==> R.NoDoubleBooking(db.bookings)
  {
    ghost var before := db.bookings;
    r := TransitionOutcome(db.bookings, id, op);
    if r.Ok? {
      db.bookings := db.bookings[id := r.value];
      if R.NoDoubleBooking(before) {
        TransitionKeepsNoDoubleBooking(before, id, op);
      }
    }
  }

  /** `cancelBooking`: only PENDING or CONFIRMED; sets CANCELLED, the time and the
      request's reason. */
  method CancelBooking(db: Database, id: nat, req: CancelRequest, now: int) returns (r: Result<Booking>)
    requires db.Valid()
    modifies db
    ensures db.Valid()
    ensures id !in old(db.bookings) ==> r == Err(NotFound(BookingEntity))
    ensures id in old(db.bookings) ==> r == Cancel(old(db.bookings)[id], now, req.cancellationReason)
    ensures r.Ok? ==> db.bookings == old(db.bookings)[id := r.value]
    ensures r.Err? ==> db.bookings == old(db.bookings)
    ensures db.rooms == old(db.rooms) && db.hotels == old(db.hotels) && db.users == old(db.users)
    ensures old(R.NoDoubleBooking(db.bookings)) ==> R.NoDoubleBooking(db.bookings)
  {
    r := Transition(db, id, CancelOp(now, req.cancellationReason));
  }

  /** `confirmBooking`: only PENDING; sets CONFIRMED, PAID, the method and the amount.
      The amount is dereferenced after the save (for the revenue counter), so a missing
      one would roll the confirmation back: the caller must supply it. */
  method ConfirmBooking(db: Database, id: nat, req: ConfirmRequest) returns (r: Result<Booking>)
    requires db.Valid() && req.paymentAmount.Some?
    modifies db
    ensures db.Valid()
    ensures id !in old(db.bookings) ==> r == Err(NotFound(BookingEntity))
    ensures id in old(db.bookings) ==> r == Confirm(old(db.bookings)[id], req.paymentMethod, req.paymentAmount)
    ensures r.Ok? ==> db.bookings == old(db.bookings)[id := r.value]
    ensures r.Err? ==> db.bookings == old(db.bookings)
    ensures db.rooms == old(db.rooms) && db.hotels == old(db.hotels) && db.users == old(db.users)
    ensures old(R.NoDoubleBooking(db.bookings)) ==> R.NoDoubleBooking(db.bookings)
  {
    r := Transition(db, id, ConfirmOp(req.paymentMethod, req.paymentAmount));
  }

  /** `checkInBooking`: only CONFIRMED and not before the check-in day; the booking
      becomes CHECKED_IN and its room OCCUPIED, in the same transaction. */
  method CheckInBooking(db: Database, id: nat, today: int) returns (r: Result<Booking>)
    requires db.Valid()
    modifies db
    ensures db.Valid()
    ensures id !in old(db.bookings) ==> r == Err(NotFound(BookingEntity))
    ensures id in old(db.bookings) ==> r == CheckIn(old(db.bookings)[id], today)
    ensures r.Ok? ==> db.bookings == old(db.bookings)[id := r.value]
                      && db.rooms == old(db.rooms)[r.value.roomId := old(db.rooms)[r.value.roomId].(status := Occupied)]
    ensures r.Err? ==> db.bookings == old(db.bookings) && db.rooms == old(db.rooms)
    ensures db.hotels == old(db.hotels) && db.users == old(db.users)
    ensures old(R.NoDoubleBooking(db.bookings)) ==> R.NoDoubleBooking(db.bookings)
  {
    r := Transition(db, id, CheckInOp(today));
    if r.Ok? {
      var roomId := r.value.roomId;
      db.rooms := db.rooms[roomId := db.rooms[roomId].(status := Occupied)];
      RewriteKeepsUnique(old(db.rooms), roomId, db.rooms[roomId]);
    }
  }

  /** `checkOutBooking`: only CHECKED_IN; the booking becomes CHECKED_OUT and its room
      AVAILABLE again. */
  method CheckOutBooking(db: Database, id: nat) returns (r: Result<Booking>)
    requires db.Valid()
    modifies db
    ensures db.Valid()
    ensures id !in old(db.bookings) ==> r == Err(NotFound(BookingEntity))
    ensures id in old(db.bookings) ==> r == CheckOut(old(db.bookings)[id])
    ensures r.Ok? ==> db.bookings == old(db.bookings)[id := r.value]
                      && db.rooms == old(db.rooms)[r.value.roomId := old(db.rooms)[r.value.roomId].(status := Available)]
    ensures r.Err? ==> db.bookings == old(db.bookings) && db.rooms == old(db.rooms)
    ensures db.hotels == old(db.hotels) && db.users == old(db.users)
    ensures old(R.NoDoubleBooking(db.bookings)) ==> R.NoDoubleBooking(db.bookings)
  {
    r := Transition(db, id, CheckOutOp);
    if r.Ok? {
      var roomId := r.value.roomId;
      db.rooms := db.rooms[roomId := db.rooms[roomId].(status := Available)];
      RewriteKeepsUnique(old(db.rooms), roomId, db.rooms[roomId]);
    }
  }

  /** `deleteBooking`: refused while the booking is active; otherwise exactly that row
      goes. */
  method DeleteBooking(db: Database, id: nat) returns (r: Result<()>)
    requires db.Valid()
    modifies db
    ensures db.Valid()
    ensures r.Ok? <==> id in old(db.bookings) && !old(db.bookings)[id].IsActive()
    ensures id !in old(db.bookings) ==> r == Err(NotFound(BookingEntity))
    ensures id in old(db.bookings) && old(db.bookings)[id].IsActive() ==> r == Err(Business(StillActive))
    ensures r.Ok? ==> db.bookings == old(db.bookings) - {id}
    ensures r.Err? ==> db.bookings == old(db.bookings)
    ensures db.rooms == old(db.rooms) && db.hotels == old(db.hotels) && db.users == old(db.users)
    ensures old(R.NoDoubleBooking(db.bookings)) ==> R.NoDoubleBooking(db.bookings)
  {
    if id !in db.bookings {
      return Err(NotFound(BookingEntity));
    }
    if db.bookings[id].IsActive() {
      return Err(Business(StillActive));
    }
    if R.NoDoubleBooking(db.bookings) {
      R.RemoveKeepsNoDoubleBooking(db.bookings, id);
    }
    db.bookings := db.bookings - {id};
    r := Ok(());
  }

  /** `getUserActiveBookings`: NotFound for an unknown user, otherwise the user's
      PENDING, CONFIRMED and CHECKED_IN bookings by ascending check-in. */
  method GetUserActiveBookings(db: Database, userId: nat) returns (r: Result<seq<Booking>>)
    ensures r.Err? <==> userId !in db.users
    ensures r.Err? ==> r.failure == NotFound(UserEntity)
    ensures r.Ok? ==> R.SortedByCheckIn(r.value)
    ensures r.Ok? ==> |r.value| == |R.ActiveOfUser(db.bookings, userId)|
    ensures r.Ok? ==> forall b :: b in r.value <==>
                        (b in db.bookings.Values && b.userId == userId && b.status in {Pending, Confirmed, CheckedIn})
  {
    if userId !in db.users {
      return Err(NotFound(UserEntity));
    }
    var found := R.FindActiveBookingsByUserId(db.bookings, userId);
    r := Ok(found);
  }
}

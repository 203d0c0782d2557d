/** The booking microservice's `BookingService`. It owns only the booking table; rooms
    and payments live in other services, reached through remote clients. A room lookup
    is a parameter (`None` when the call fails). The room-status and payment calls the
    service makes are outputs: after saving for create, cancel and confirm, before
    saving for check-in and check-out. Their failures are caught and logged, so the
    returned booking and the table never depend on how they went. */
module BookingMicroservice {
  import opened Wrappers
  import opened Text
  import opened Bookings
  import opened BookingRules
  import opened BookingMicroserviceRepository
  import BookingRequests
  import M = MonolithBookingRepository
  import MB = MonolithBookingService

  /** What the service reads from the room service's answer. */
  datatype RoomView = RoomView(id: nat, status: string, maxOccupancy: int, price: int)

  const AvailableStatus := "AVAILABLE"

  /** A room-status change the service asks the room service for. */
  datatype RoomStatusCall = RoomStatusCall(roomId: nat, status: string)

  /** The payment record `confirmBooking` posts to the payment service. */
  datatype PaymentCall = PaymentCall(bookingId: nat, amount: Option<int>, status: string,
                                     paymentMethod: Option<string>, gateway: string,
                                     description: string, paymentDate: int)

  /** The update request of this service: status and payment status arrive as names. */
  datatype UpdateRequest = UpdateRequest(
    checkIn: Option<int>,
    checkOut: Option<int>,
    guests: Option<int>,
    specialRequests: Option<string>,
    status: Option<string>,
    paymentStatus: Option<string>,
    paymentMethod: Option<string>,
    paidAmount: Option<int>)

  /** The outcome of `createBooking`: date check, room lookup (any failure is NotFound),
      room status, availability and guest count, in that order; the unique column
      refuses a confirmation number already stored. A new booking is PENDING and
      unpaid, priced at the room rate times the nights. */
  function CreateOutcome(bookings: Table, room: Option<RoomView>, req: BookingRequests.CreateRequest,
                         today: int, id: nat, uuid: string): (r: Result<Booking>)
    requires req.HasRequiredFields() && IsUuidText(uuid)
    ensures r.Ok? <==>
              && ValidateBookingDates(req.checkIn.value, req.checkOut.value, today).None?
              && room.Some? && room.value.status == AvailableStatus
              && IsRoomAvailable(bookings, req.roomId.value, req.checkIn.value, req.checkOut.value)
              && req.guests.value <= room.value.maxOccupancy
              && !M.NumberInUse(bookings, ConfirmationNumber(uuid))
    ensures ValidateBookingDates(req.checkIn.value, req.checkOut.value, today).Some? ==>
              r == Err(Business(ValidateBookingDates(req.checkIn.value, req.checkOut.value, today).value))
    ensures ValidateBookingDates(req.checkIn.value, req.checkOut.value, today).None? && room.None? ==>
              r == Err(NotFound(RoomEntity))
    ensures ValidateBookingDates(req.checkIn.value, req.checkOut.value, today).None? && room.Some? ==>
              var free := IsRoomAvailable(bookings, req.roomId.value, req.checkIn.value, req.checkOut.value);
              var fits := req.guests.value <= room.value.maxOccupancy;
              && (room.value.status != AvailableStatus ==> r == Err(Business(RoomNotAvailable)))
              && (room.value.status == AvailableStatus && !free ==> r == Err(Business(RoomAlreadyBooked)))
              && (room.value.status == AvailableStatus && free && !fits ==> r == Err(Business(TooManyGuests)))
              && (room.value.status == AvailableStatus && free && fits && M.NumberInUse(bookings, ConfirmationNumber(uuid))
                  ==> r == Err(ConstraintViolation))
    ensures r.Ok? ==>
              && r.value.id == id && r.value.userId == req.userId.value && r.value.roomId == req.roomId.value
              && r.value.checkIn == req.checkIn.value && r.value.checkOut == req.checkOut.value
              && r.value.guests == req.guests.value
              && 1 <= r.value.NumberOfNights() <= MaxNights
              && r.value.totalPrice == room.value.price * r.value.NumberOfNights()
              && r.value.status == Pending && r.value.paymentStatus == PaymentPending
              && r.value.paidAmount.None? && r.value.cancelledAt.None?
              && r.value.paymentMethod == req.paymentMethod && r.value.specialRequests == req.specialRequests
              && r.value.confirmationNumber == ConfirmationNumber(uuid)
  {
    var checkIn, checkOut := req.checkIn.value, req.checkOut.value;
    var problem := ValidateBookingDates(checkIn, checkOut, today);
    if problem.Some? then Err(Business(problem.value))
    else if room.None? then Err(NotFound(RoomEntity))
    else if room.value.status != AvailableStatus then Err(Business(RoomNotAvailable))
    else if !IsRoomAvailable(bookings, req.roomId.value, checkIn, checkOut) then Err(Business(RoomAlreadyBooked))
    else if req.guests.value > room.value.maxOccupancy then Err(Business(TooManyGuests))
    else if M.NumberInUse(bookings, ConfirmationNumber(uuid)) then Err(ConstraintViolation)
    else
      Ok(NewBooking(id, req.userId.value, req.roomId.value, checkIn, checkOut, req.guests.value,
                    room.value.price * (checkOut - checkIn), req.specialRequests,
                    ConfirmationNumber(uuid), req.paymentMethod))
  }

  /** A created booking neither double-books its room nor repeats a confirmation number. */
  lemma CreateKeepsInvariants(bookings: Table, room: Option<RoomView>, req: BookingRequests.CreateRequest,
                              today: int, id: nat, uuid: string)
    requires req.HasRequiredFields() && IsUuidText(uuid) && id !in bookings
    requires CreateOutcome(bookings, room, req, today, id, uuid).Ok?
    ensures var after := bookings[id := CreateOutcome(bookings, room, req, today, id, uuid).value];
            && (M.NoDoubleBooking(bookings) ==> M.NoDoubleBooking(after))
            && (M.UniqueConfirmationNumbers(bookings) ==> M.UniqueConfirmationNumbers(after))
  {
    var b := CreateOutcome(bookings, room, req, today, id, uuid).value;
    if M.NoDoubleBooking(bookings) {
      AvailabilityAgreesWithMonolith(bookings, b.roomId, b.checkIn, b.checkOut);
      M.WriteUnblockedKeepsNoDoubleBooking(bookings, id, b);
    }
  }

  /** Whether `updateBooking` runs the date and overlap checks: when the request carries
      a date. The guarded variant also runs them when the request turns a booking that
      holds no room (NO_SHOW) back into one that does. */
  predicate ChecksDates(b: Booking, req: UpdateRequest, guarded: bool)
  {
    || req.checkIn.Some? || req.checkOut.Some?
    || (guarded && req.status.Some? && ParseBookingStatus(req.status.value).Ok?
        && M.Holds(ParseBookingStatus(req.status.value).value) && !M.Holds(b.status))
  }

  /** The self-excluding conflict test over this service's overlap query. */
  predicate HasConflict(bookings: Table, b: Booking, checkIn: int, checkOut: int)
  {
    exists o :: o in FindOverlappingBookings(bookings, b.roomId, checkIn, checkOut) && o.id != b.id
  }

  /** The stay an update asks for passes the date check and overlaps no other booking. */
  predicate DatesAccepted(bookings: Table, b: Booking, req: UpdateRequest, today: int)
  {
    var newIn, newOut := req.checkIn.GetOr(b.checkIn), req.checkOut.GetOr(b.checkOut);
    ValidateBookingDates(newIn, newOut, today).None? && !HasConflict(bookings, b, newIn, newOut)
  }

  /** The outcome of `updateBooking` on stored booking `id` (as written when `guarded`
      is false): the terminal-status guard; when dates are given, the date check, the
      overlap check and a price from a freshly fetched rate, whose failure is not
      caught; then the other non-null fields, status and payment status parsed by
      name. The guest count is not checked against the room. */
  function UpdateOutcome(bookings: Table, id: nat, req: UpdateRequest, room: Option<RoomView>,
                         today: int, guarded: bool): (r: Result<Booking>)
    requires M.Keyed(bookings)
    ensures id !in bookings <==> r == Err(NotFound(BookingEntity))
    ensures id in bookings && bookings[id].status in {Cancelled, CheckedOut} ==> r == Err(Business(NotUpdatable))
    ensures r.Ok? ==> id in bookings && bookings[id].status !in {Cancelled, CheckedOut}
    ensures r.Ok? ==> var b := bookings[id];
              && r.value.id == id && r.value.userId == b.userId && r.value.roomId == b.roomId
              && r.value.confirmationNumber == b.confirmationNumber
              && r.value.cancelledAt == b.cancelledAt && r.value.cancellationReason == b.cancellationReason
    ensures r.Ok? && !ChecksDates(bookings[id], req, guarded) ==>
              var b := bookings[id];
              r.value.checkIn == b.checkIn && r.value.checkOut == b.checkOut && r.value.totalPrice == b.totalPrice
    ensures r.Ok? && ChecksDates(bookings[id], req, guarded) ==>
              var b := bookings[id];
              && r.value.checkIn == req.checkIn.GetOr(b.checkIn) && r.value.checkOut == req.checkOut.GetOr(b.checkOut)
              && ValidateBookingDates(r.value.checkIn, r.value.checkOut, today).None?
              && room.Some? && r.value.totalPrice == room.value.price * r.value.NumberOfNights()
              && !HasConflict(bookings, b, r.value.checkIn, r.value.checkOut)
    ensures r.Ok? <==>
              && id in bookings && bookings[id].status !in {Cancelled, CheckedOut}
              && (ChecksDates(bookings[id], req, guarded) ==> DatesAccepted(bookings, bookings[id], req, today) && room.Some?)
              && (req.status.Some? ==> ParseBookingStatus(req.status.value).Ok?)
              && (req.paymentStatus.Some? ==> ParsePaymentStatus(req.paymentStatus.value).Ok?)
    ensures id in bookings && bookings[id].status !in {Cancelled, CheckedOut}
            && ChecksDates(bookings[id], req, guarded) ==>
              var b := bookings[id];
              var newIn, newOut := req.checkIn.GetOr(b.checkIn), req.checkOut.GetOr(b.checkOut);
              && (ValidateBookingDates(newIn, newOut, today).Some? ==>
                    r == Err(Business(ValidateBookingDates(newIn, newOut, today).value)))
              && (ValidateBookingDates(newIn, newOut, today).None? && HasConflict(bookings, b, newIn, newOut) ==>
                    r == Err(Business(DatesUnavailable)))
              && (DatesAccepted(bookings, b, req, today) && room.None? ==> r == Err(RemoteFailure))
    ensures id in bookings && bookings[id].status !in {Cancelled, CheckedOut}
            && (ChecksDates(bookings[id], req, guarded) ==> DatesAccepted(bookings, bookings[id], req, today) && room.Some?)
            ==> && (req.status.Some? && ParseBookingStatus(req.status.value).Err? ==> r == Err(IllegalArgument))
                && (req.paymentStatus.Some? && ParsePaymentStatus(req.paymentStatus.value).Err?
                    ==> r == Err(IllegalArgument))
    ensures r.Ok? ==> r.value.guests == req.guests.GetOr(bookings[id].guests)
    ensures r.Ok? ==> (req.status.Some? ==> BookingStatusName(r.value.status) == req.status.value)
                      && (req.status.None? ==> r.value.status == bookings[id].status)
    ensures r.Ok? ==> (req.paymentStatus.Some? ==> PaymentStatusName(r.value.paymentStatus) == req.paymentStatus.value)
                      && (req.paymentStatus.None? ==> r.value.paymentStatus == bookings[id].paymentStatus)
    ensures req.status.Some? && ParseBookingStatus(req.status.value).Err? ==> r.Err?
    ensures req.paymentStatus.Some? && ParsePaymentStatus(req.paymentStatus.value).Err? ==> r.Err?
    ensures r.Ok? ==> var b := bookings[id];
              && r.value.specialRequests == req.specialRequests.Or(b.specialRequests)
              && r.value.paymentMethod == req.paymentMethod.Or(b.paymentMethod)
              && r.value.paidAmount == req.paidAmount.Or(b.paidAmount)
  {
    if id !in bookings then Err(NotFound(BookingEntity))
    else
      var b := bookings[id];
      if b.status == Cancelled || b.status == CheckedOut then Err(Business(NotUpdatable))
      else
        var dated: Result<Booking> :=
          if !ChecksDates(b, req, guarded) then Ok(b)
          else
            var newIn, newOut := req.checkIn.GetOr(b.checkIn), req.checkOut.GetOr(b.checkOut);
            var problem := ValidateBookingDates(newIn, newOut, today);
            if problem.Some? then Err(Business(problem.value))
            else if HasConflict(bookings, b, newIn, newOut) then Err(Business(DatesUnavailable))
            else if room.None? then Err(RemoteFailure)
            else Ok(b.(checkIn := newIn, checkOut := newOut, totalPrice := room.value.price * (newOut - newIn)));
        if dated.Err? then dated
        else
          var c := dated.value;
          var status := if req.status.Some? then ParseBookingStatus(req.status.value) else Ok(c.status);
          var payment := if req.paymentStatus.Some? then ParsePaymentStatus(req.paymentStatus.value)
                         else Ok(c.paymentStatus);
          if status.Err? then Err(status.failure)
          else if payment.Err? then Err(payment.failure)
          else
            Ok(c.(guests := req.guests.GetOr(c.guests),
                  specialRequests := req.specialRequests.Or(c.specialRequests),
                  status := status.value,
                  paymentStatus := payment.value,
                  paymentMethod := req.paymentMethod.Or(c.paymentMethod),
                  paidAmount := req.paidAmount.Or(c.paidAmount)))
  }

  /** Unlike the monolith's, this update accepts any guest count: an update that only
      sets the guests of a stored, updatable booking always succeeds. */
  lemma UpdateIgnoresOccupancy(bookings: Table, id: nat, guests: int, room: Option<RoomView>, today: int)
    requires M.Keyed(bookings) && id in bookings && bookings[id].status !in {Cancelled, CheckedOut}
    ensures UpdateOutcome(bookings, id, UpdateRequest(None, None, Some(guests), None, None, None, None, None),
                          room, today, false)
            == Ok(bookings[id].(guests := guests))
  {
  }

  /** No accepted update changes a confirmation number, so the numbers stay unique. */
  lemma UpdateKeepsNumbers(bookings: Table, id: nat, req: UpdateRequest, room: Option<RoomView>,
                           today: int, guarded: bool)
    requires M.Keyed(bookings) && M.UniqueConfirmationNumbers(bookings)
    requires UpdateOutcome(bookings, id, req, room, today, guarded).Ok?
    ensures M.UniqueConfirmationNumbers(bookings[id := UpdateOutcome(bookings, id, req, room, today, guarded).value])
  {
  }

  /** An update that checked its dates, or that leaves the booking no more holding than
      it was, cannot double-book the room. */
  lemma UpdateKeepsNoDoubleBookingWhenChecked(bookings: Table, id: nat, req: UpdateRequest,
                                              room: Option<RoomView>, today: int, guarded: bool)
    requires M.Keyed(bookings) && M.NoDoubleBooking(bookings)
    requires UpdateOutcome(bookings, id, req, room, today, guarded).Ok?
    requires ChecksDates(bookings[id], req, guarded)
             || !M.Holds(UpdateOutcome(bookings, id, req, room, today, guarded).value.status)
             || M.Holds(bookings[id].status)
    ensures M.NoDoubleBooking(bookings[id := UpdateOutcome(bookings, id, req, room, today, guarded).value])
  {
    var b := UpdateOutcome(bookings, id, req, room, today, guarded).value;
    if ChecksDates(bookings[id], req, guarded) {
      forall j | j in bookings && j != id
        ensures !M.Blocks(bookings[j], b.roomId, b.checkIn, b.checkOut)
      {
        assert bookings[j].id != b.id;
      }
      M.WriteUnblockedKeepsNoDoubleBooking(bookings, id, b);
    } else if !M.Holds(b.status) {
      M.WriteUnblockedKeepsNoDoubleBooking(bookings, id, b);
    } else {
      M.WriteSameStayKeepsNoDoubleBooking(bookings, id, b);
    }
  }

  /** As written, this update can double-book a room the same way the monolith's can:
      a NO_SHOW booking set back to CONFIRMED without new dates is not checked. */
  lemma UpdateReopensNoShow()
    ensures var holder := Booking(1, 7, 5, 10, 12, 2, 20000, Confirmed, None, "BK-00000001", Paid,
                                  None, Some(20000), None, None);
            var noShow := Booking(2, 8, 5, 10, 12, 2, 20000, NoShow, None, "BK-00000002", Paid,
                                  None, Some(20000), None, None);
            var bookings := map[1 := holder, 2 := noShow];
            var req := UpdateRequest(None, None, None, None, Some("CONFIRMED"), None, None, None);
            && M.Keyed(bookings) && M.NoDoubleBooking(bookings)
            && UpdateOutcome(bookings, 2, req, None, 11, false).Ok?
            && !M.NoDoubleBooking(bookings[2 := UpdateOutcome(bookings, 2, req, None, 11, false).value])
  {
    var holder := Booking(1, 7, 5, 10, 12, 2, 20000, Confirmed, None, "BK-00000001", Paid,
                          None, Some(20000), None, None);
    var noShow := Booking(2, 8, 5, 10, 12, 2, 20000, NoShow, None, "BK-00000002", Paid,
                          None, Some(20000), None, None);
    var bookings := map[1 := holder, 2 := noShow];
    var req := UpdateRequest(None, None, None, None, Some("CONFIRMED"), None, None, None);
    assert ParseBookingStatus("CONFIRMED") == Ok(Confirmed);
    var after := bookings[2 := UpdateOutcome(bookings, 2, req, None, 11, false).value];
    assert after[1] == holder && after[2].status == Confirmed && after[2].checkIn == 10;
  }

  /** With the overlap check also run on reactivation, every accepted update keeps the
      room free of double bookings. */
  lemma GuardedUpdateKeepsNoDoubleBooking(bookings: Table, id: nat, req: UpdateRequest, room: Option<RoomView>,
                                          today: int)
    requires M.Keyed(bookings) && M.NoDoubleBooking(bookings)
    requires UpdateOutcome(bookings, id, req, room, today, true).Ok?
    ensures M.NoDoubleBooking(bookings[id := UpdateOutcome(bookings, id, req, room, today, true).value])
  {
    var b := UpdateOutcome(bookings, id, req, room, today, true).value;
    if req.status.Some? {
      assert ParseBookingStatus(req.status.value) == Ok(b.status);
    }
    UpdateKeepsNoDoubleBookingWhenChecked(bookings, id, req, room, today, true);
  }

  /** A guarded transition keeps the confirmation number, so it keeps the numbers unique. */
  lemma TransitionKeepsNumbers(bookings: Table, id: nat, op: Op)
    requires M.UniqueConfirmationNumbers(bookings)
    requires MB.TransitionOutcome(bookings, id, op).Ok?
    ensures M.UniqueConfirmationNumbers(bookings[id := MB.TransitionOutcome(bookings, id, op).value])
  {
  }

  class BookingService {
    var bookings: Table
    var nextId: nat

    /** Rows keyed by id, ids below the next one, and unique confirmation numbers. */
    ghost predicate Valid()
      reads this
    {
      && M.Keyed(bookings)
      && (forall id :: id in bookings ==> id < nextId)
      && M.UniqueConfirmationNumbers(bookings)
    }

    constructor ()
      ensures Valid() && bookings == map[]
    {
      bookings := map[];
      nextId := 1;
    }

    /** `createBooking`; on success the room is then asked to become RESERVED. */
    method CreateBooking(req: BookingRequests.CreateRequest, room: Option<RoomView>, today: int, uuid: string)
      returns (r: Result<Booking>, call: Option<RoomStatusCall>)
      requires Valid() && req.HasRequiredFields() && IsUuidText(uuid)
      modifies this
      ensures Valid()
      ensures r == CreateOutcome(old(bookings), room, req, today, old(nextId), uuid)
      ensures r.Ok? ==> r.value.id !in old(bookings) && bookings == old(bookings)[r.value.id := r.value]
      ensures r.Ok? ==> call == Some(RoomStatusCall(room.value.id, "RESERVED"))
      ensures r.Err? ==> bookings == old(bookings) && call.None?
      ensures old(M.NoDoubleBooking(bookings)) ==> M.NoDoubleBooking(bookings)
    {
      call := None;
      var checkIn, checkOut := req.checkIn.value, req.checkOut.value;
      var problem := ValidateBookingDates(checkIn, checkOut, today);
      if problem.Some? {
        return Err(Business(problem.value)), None;
      }
      if room.None? {
        return Err(NotFound(RoomEntity)), None;
      }
      if room.value.status != AvailableStatus {
        return Err(Business(RoomNotAvailable)), None;
      }
      if !IsRoomAvailable(bookings, req.roomId.value, checkIn, checkOut) {
        return Err(Business(RoomAlreadyBooked)), None;
      }
      if req.guests.value > room.value.maxOccupancy {
        return Err(Business(TooManyGuests)), None;
      }
      var number := ConfirmationNumber(uuid);
      if M.NumberInUse(bookings, number) {
        return Err(ConstraintViolation), None;
      }
      var id := nextId;
      nextId := nextId + 1;
      var booking := NewBooking(id, req.userId.value, req.roomId.value, checkIn, checkOut, req.guests.value,
                                room.value.price * (checkOut - checkIn), req.specialRequests, number,
                                req.paymentMethod);
      CreateKeepsInvariants(bookings, room, req, today, id, uuid);
      bookings := bookings[id := booking];
      r := Ok(booking);
      call := Some(RoomStatusCall(room.value.id, "RESERVED"));
    }

    /** `updateBooking`, with the overlap check also run when a NO_SHOW booking is made
        to hold its room again (`UpdateOutcome` with `guarded` false is the update as
        the source writes it); `room` is the rate lookup it makes when dates change. */
    method UpdateBooking(id: nat, req: UpdateRequest, room: Option<RoomView>, today: int) returns (r: Result<Booking>)
      requires Valid()
      modifies this
      ensures Valid()
      ensures r == UpdateOutcome(old(bookings), id, req, room, today, true)
      ensures r.Ok? ==> bookings == old(bookings)[id := r.value]
      ensures r.Err? ==> bookings == old(bookings)
      ensures nextId == old(nextId)
      ensures old(M.NoDoubleBooking(bookings)) ==> M.NoDoubleBooking(bookings)
    {
      ghost var before := bookings;
      r := UpdateOutcome(bookings, id, req, room, today, true);
      if r.Ok? {
        UpdateKeepsNumbers(bookings, id, req, room, today, true);
        if M.NoDoubleBooking(before) {
          GuardedUpdateKeepsNoDoubleBooking(before, id, req, room, today);
        }
        bookings := bookings[id := r.value];
      }
    }

    /** Load, guard, write the one row. */
    method Transition(id: nat, op: Op) returns (r: Result<Booking>)
      requires Valid()
      modifies this
      ensures Valid()
      ensures r == MB.TransitionOutcome(old(bookings), id, op)
      ensures r.Ok? ==> bookings == old(bookings)[id := r.value]
      ensures r.Err? ==> bookings == old(bookings)
      ensures nextId == old(nextId)
      ensures old(M.NoDoubleBooking(bookings)) ==> M.NoDoubleBooking(bookings)
    {
      r := MB.TransitionOutcome(bookings, id, op);
      if r.Ok? {
        TransitionKeepsNumbers(bookings, id, op);
        if M.NoDoubleBooking(bookings) {
          MB.TransitionKeepsNoDoubleBooking(bookings, id, op);
        }
        bookings := bookings[id := r.value];
      }
    }

    /** `cancelBooking`: only PENDING or CONFIRMED; then the room is asked to become
        AVAILABLE. */
    method CancelBooking(id: nat, reason: Option<string>, now: int) returns (r: Result<Booking>, call: Option<RoomStatusCall>)
      requires Valid()
      modifies this
      ensures Valid()
      ensures id !in old(bookings) ==> r == Err(NotFound(BookingEntity))
      ensures id in old(bookings) ==> r == Cancel(old(bookings)[id], now, reason)
      ensures r.Ok? ==> bookings == old(bookings)[id := r.value] && call == Some(RoomStatusCall(r.value.roomId, "AVAILABLE"))
      ensures r.Err? ==> bookings == old(bookings) && call.None?
      ensures old(M.NoDoubleBooking(bookings)) ==> M.NoDoubleBooking(bookings)
    {
      r := Transition(id, CancelOp(now, reason));
      call := if r.Ok? then Some(RoomStatusCall(r.value.roomId, AvailableStatus)) else None;
    }

    /** `confirmBooking`: only PENDING; sets CONFIRMED and PAID with the request's method
        and amount, then posts a COMPLETED payment for that amount. */
    method ConfirmBooking(id: nat, req: BookingRequests.ConfirmRequest, now: int)
      returns (r: Result<Booking>, payment: Option<PaymentCall>)
      requires Valid()
      modifies this
      ensures Valid()
      ensures id !in old(bookings) ==> r == Err(NotFound(BookingEntity))
      ensures id in old(bookings) ==> r == Confirm(old(bookings)[id], req.paymentMethod, req.paymentAmount)
      ensures r.Ok? ==> bookings == old(bookings)[id := r.value]
      ensures r.Ok? ==> payment == Some(PaymentCall(id, req.paymentAmount, "COMPLETED", req.paymentMethod, "STRIPE",
                                                    "Payment for booking " + r.value.confirmationNumber, now))
      ensures r.Err? ==> bookings == old(bookings) && payment.None?
      ensures old(M.NoDoubleBooking(bookings)) ==> M.NoDoubleBooking(bookings)
    {
      r := Transition(id, ConfirmOp(req.paymentMethod, req.paymentAmount));
      payment := None;
      if r.Ok? {
        payment := Some(PaymentCall(r.value.id, req.paymentAmount, "COMPLETED", req.paymentMethod, "STRIPE",
                                    "Payment for booking " + r.value.confirmationNumber, now));
      }
    }

    /** `checkInBooking`: only CONFIRMED and not before the check-in day; the room is
        asked to become OCCUPIED before the booking is saved. */
    method CheckInBooking(id: nat, today: int) returns (r: Result<Booking>, call: Option<RoomStatusCall>)
      requires Valid()
      modifies this
      ensures Valid()
      ensures id !in old(bookings) ==> r == Err(NotFound(BookingEntity))
      ensures id in old(bookings) ==> r == CheckIn(old(bookings)[id], today)
      ensures r.Ok? ==> bookings == old(bookings)[id := r.value] && call == Some(RoomStatusCall(r.value.roomId, "OCCUPIED"))
      ensures r.Err? ==> bookings == old(bookings) && call.None?
      ensures old(M.NoDoubleBooking(bookings)) ==> M.NoDoubleBooking(bookings)
    {
      r := Transition(id, CheckInOp(today));
      call := if r.Ok? then Some(RoomStatusCall(r.value.roomId, "OCCUPIED")) else None;
    }

    /** `checkOutBooking`: only CHECKED_IN; the room is asked to become AVAILABLE before
        the booking is saved. */
    method CheckOutBooking(id: nat) returns (r: Result<Booking>, call: Option<RoomStatusCall>)
      requires Valid()
      modifies this
      ensures Valid()
      ensures id !in old(bookings) ==> r == Err(NotFound(BookingEntity))
      ensures id in old(bookings) ==> r == CheckOut(old(bookings)[id])
      ensures r.Ok? ==> bookings == old(bookings)[id := r.value] && call == Some(RoomStatusCall(r.value.roomId, "AVAILABLE"))
      ensures r.Err? ==> bookings == old(bookings) && call.None?
      ensures old(M.NoDoubleBooking(bookings)) ==> M.NoDoubleBooking(bookings)
    {
      r := Transition(id, CheckOutOp);
      call := if r.Ok? then Some(RoomStatusCall(r.value.roomId, AvailableStatus)) else None;
    }

    /** `deleteBooking`: refused while the booking is active; otherwise exactly that row
        goes. */
    method DeleteBooking(id: nat) returns (r: Result<()>)
      requires Valid()
      modifies this
      ensures Valid()
      ensures r.Ok? <==> id in old(bookings) && !old(bookings)[id].IsActive()
      ensures id !in old(bookings) ==> r == Err(NotFound(BookingEntity))
      ensures id in old(bookings) && old(bookings)[id].IsActive() ==> r == Err(Business(StillActive))
      ensures r.Ok? ==> bookings == old(bookings) - {id}
      ensures r.Err? ==> bookings == old(bookings)
      ensures nextId == old(nextId)
      ensures old(M.NoDoubleBooking(bookings)) ==> M.NoDoubleBooking(bookings)
    {
      if id !in bookings {
        return Err(NotFound(BookingEntity));
      }
      if bookings[id].IsActive() {
        return Err(Business(StillActive));
      }
      if M.NoDoubleBooking(bookings) {
        M.RemoveKeepsNoDoubleBooking(bookings, id);
      }
      bookings := bookings - {id};
      r := Ok(());
    }
  }
}

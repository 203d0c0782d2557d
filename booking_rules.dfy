/** The rules both booking services apply to one booking: the date check, the
    confirmation number, the inclusive overlap test and the guarded status transitions
    (cancel, confirm, check-in, check-out). A transition returns the updated record or
    the exception it throws; the services then save the record or leave the store alone. */
module BookingRules {
  import opened Wrappers
  import opened Text
  import opened Bookings

  const MaxNights := 30

  /** `validateBookingDates`: check-in not in the past, check-out strictly after
      check-in, and at most thirty nights, tested in that order. */
  function ValidateBookingDates(checkIn: int, checkOut: int, today: int): (r: Option<Reason>)
    ensures r.None? <==> today <= checkIn < checkOut <= checkIn + MaxNights
    ensures r == Some(PastCheckIn) <==> checkIn < today
    ensures r == Some(CheckOutNotAfterCheckIn) <==> today <= checkIn && checkOut <= checkIn
    ensures r == Some(StayTooLong) <==> today <= checkIn < checkOut && checkOut - checkIn > MaxNights
  {
    if checkIn < today then Some(PastCheckIn)
    else if checkOut < checkIn || checkOut == checkIn then Some(CheckOutNotAfterCheckIn)
    else if checkOut - checkIn > MaxNights then Some(StayTooLong)
    else None
  }

  /** A booking whose dates passed validation lasts between one and thirty nights. */
  lemma ValidatedStayNights(b: Booking, today: int)
    requires ValidateBookingDates(b.checkIn, b.checkOut, today).None?
    ensures 1 <= b.NumberOfNights() <= MaxNights
  {
  }

  /** `generateConfirmationNumber`: "BK-" and the first eight characters of a random
      UUID, upper-cased. The UUID text is a parameter. */
  function ConfirmationNumber(uuid: string): (r: string)
    requires IsUuidText(uuid)
    ensures |r| == 11 && r[..3] == "BK-"
    ensures forall i :: 3 <= i < 11 ==> IsUpperHex(r[i])
  {
    var code := ToUpper(uuid[..8]);
    assert forall i :: 0 <= i < 8 ==> IsLowerHex(uuid[i]);
    "BK-" + code
  }

  /** Two confirmation numbers coincide exactly when the two UUIDs share their first
      eight hex digits: nothing else in the number tells bookings apart. */
  lemma ConfirmationNumbersCollide(u: string, v: string)
    requires IsUuidText(u) && IsUuidText(v)
    ensures ConfirmationNumber(u) == ConfirmationNumber(v) <==> u[..8] == v[..8]
  {
    if ConfirmationNumber(u) == ConfirmationNumber(v) {
      forall i | 0 <= i < 8
        ensures u[i] == v[i]
      {
        assert ConfirmationNumber(u)[3 + i] == ToUpperChar(u[i]);
        assert ConfirmationNumber(v)[3 + i] == ToUpperChar(v[i]);
        assert IsLowerHex(u[i]) && IsLowerHex(v[i]);
      }
      assert u[..8] == v[..8];
    }
  }

  /** The JPQL overlap test `b.checkInDate <= :checkOut AND b.checkOutDate >= :checkIn`,
      inclusive at both ends. */
  predicate Overlaps(bIn: int, bOut: int, qIn: int, qOut: int)
  {
    bIn <= qOut && bOut >= qIn
  }

  /** The overlap test does not depend on which range is the stored one. */
  lemma OverlapsSymmetric(aIn: int, aOut: int, bIn: int, bOut: int)
    ensures Overlaps(aIn, aOut, bIn, bOut) <==> Overlaps(bIn, bOut, aIn, aOut)
  {
  }

  /** Inclusive ends: a stay checking out on day d conflicts with one checking in on d. */
  lemma BackToBackStaysConflict(checkIn: int, d: int, checkOut: int)
    requires checkIn < d < checkOut
    ensures Overlaps(checkIn, d, d, checkOut)
  {
  }

  /** The columns a transition leaves alone: everything except status, payment and
      cancellation data. */
  predicate SameStay(a: Booking, b: Booking)
  {
    && a.id == b.id && a.userId == b.userId && a.roomId == b.roomId
    && a.checkIn == b.checkIn && a.checkOut == b.checkOut && a.guests == b.guests
    && a.totalPrice == b.totalPrice && a.specialRequests == b.specialRequests
    && a.confirmationNumber == b.confirmationNumber
  }

  /** `cancelBooking` on the loaded record. */
  function Cancel(b: Booking, now: int, reason: Option<string>): (r: Result<Booking>)
    ensures r.Ok? <==> b.CanBeCancelled()
    ensures r.Err? ==> r.failure == Business(NotCancellable)
    ensures r.Ok? ==> r.value == b.(status := Cancelled, cancelledAt := Some(now),
                                     cancellationReason := reason)
  {
    if !b.CanBeCancelled() then Err(Business(NotCancellable))
    else Ok(b.(status := Cancelled, cancelledAt := Some(now), cancellationReason := reason))
  }

  /** `confirmBooking` on the loaded record: the booking is paid with the request's
      method and amount. */
  function Confirm(b: Booking, paymentMethod: Option<string>, amount: Option<int>): (r: Result<Booking>)
    ensures r.Ok? <==> b.status == Pending
    ensures r.Err? ==> r.failure == Business(NotPending)
    ensures r.Ok? ==> r.value == b.(status := Confirmed, paymentStatus := Paid,
                                     paymentMethod := paymentMethod, paidAmount := amount)
  {
    if b.status != Pending then Err(Business(NotPending))
    else Ok(b.(status := Confirmed, paymentStatus := Paid,
               paymentMethod := paymentMethod, paidAmount := amount))
  }

  /** `checkInBooking` on the loaded record: confirmed, and the check-in day has come. */
  function CheckIn(b: Booking, today: int): (r: Result<Booking>)
    ensures r.Ok? <==> b.status == Confirmed && b.checkIn <= today
    ensures r == Err(Business(NotConfirmed)) <==> b.status != Confirmed
    ensures r == Err(Business(TooEarly)) <==> b.status == Confirmed && b.checkIn > today
    ensures r.Ok? ==> r.value == b.(status := CheckedIn)
  {
    if b.status != Confirmed then Err(Business(NotConfirmed))
    else if b.checkIn > today then Err(Business(TooEarly))
    else Ok(b.(status := CheckedIn))
  }

  /** `checkOutBooking` on the loaded record. */
  function CheckOut(b: Booking): (r: Result<Booking>)
    ensures r.Ok? <==> b.status == CheckedIn
    ensures r.Err? ==> r.failure == Business(NotCheckedIn)
    ensures r.Ok? ==> r.value == b.(status := CheckedOut)
  {
    if b.status != CheckedIn then Err(Business(NotCheckedIn))
    else Ok(b.(status := CheckedOut))
  }

  /** One guarded lifecycle request. */
  datatype Op =
    | CancelOp(now: int, reason: Option<string>)
    | ConfirmOp(paymentMethod: Option<string>, amount: Option<int>)
    | CheckInOp(today: int)
    | CheckOutOp

  function Apply(b: Booking, op: Op): Result<Booking>
  {
    match op
    case CancelOp(now, reason) => Cancel(b, now, reason)
    case ConfirmOp(m, amount) => Confirm(b, m, amount)
    case CheckInOp(today) => CheckIn(b, today)
    case CheckOutOp => CheckOut(b)
  }

  /** A run of requests against one booking; a refused request leaves it as it was. */
  function Run(b: Booking, ops: seq<Op>): Booking
    decreases |ops|
  {
    if |ops| == 0 then b
    else
      var r := Apply(b, ops[0]);
      Run(if r.Ok? then r.value else b, ops[1..])
  }

  /** How far along the lifecycle a status is; NO_SHOW, CHECKED_OUT and CANCELLED
      admit no guarded transition. */
  function Rank(s: BookingStatus): nat
  {
    match s
    case Pending => 0
    case Confirmed => 1
    case CheckedIn => 2
    case CheckedOut | Cancelled | NoShow => 3
  }

  /** Every accepted transition moves strictly forward and keeps the stay itself. */
  lemma ApplyAdvances(b: Booking, op: Op)
    requires Apply(b, op).Ok?
    ensures Rank(Apply(b, op).value.status) > Rank(b.status)
    ensures SameStay(b, Apply(b, op).value)
  {
  }

  /** Number of requests a run accepts. */
  function Accepted(b: Booking, ops: seq<Op>): nat
    decreases |ops|
  {
    if |ops| == 0 then 0
    else
      var r := Apply(b, ops[0]);
      (if r.Ok? then 1 else 0) + Accepted(if r.Ok? then r.value else b, ops[1..])
  }

  /** Along any run the status never moves backwards, the stay, its room, its guest and
      its confirmation number never change, and at most three requests are accepted in
      total (PENDING, CONFIRMED, CHECKED_IN, CHECKED_OUT is the longest path). */
  lemma {:induction false} RunIsMonotone(b: Booking, ops: seq<Op>)
    ensures Rank(Run(b, ops).status) >= Rank(b.status)
    ensures SameStay(b, Run(b, ops))
    ensures Accepted(b, ops) <= 3 - Rank(b.status)
    decreases |ops|
  {
    if |ops| > 0 {
      var r := Apply(b, ops[0]);
      var next := if r.Ok? then r.value else b;
      if r.Ok? {
        ApplyAdvances(b, ops[0]);
      }
      RunIsMonotone(next, ops[1..]);
    }
  }

  /** A cancelled, checked-out or no-show booking is final for every guarded request. */
  lemma {:induction false} TerminalIsFinal(b: Booking, ops: seq<Op>)
    requires Rank(b.status) == 3
    ensures Run(b, ops) == b
    ensures Accepted(b, ops) == 0
    decreases |ops|
  {
    RunIsMonotone(b, ops);
    if |ops| > 0 {
      assert Apply(b, ops[0]).Err?;
      TerminalIsFinal(b, ops[1..]);
    }
  }
}

/** The booking record shared by both variants of the booking service: the status
    enums, the record itself and the three derived properties it exposes. */
module Bookings {
  import opened Wrappers

  datatype BookingStatus = Pending | Confirmed | CheckedIn | CheckedOut | Cancelled | NoShow

  datatype PaymentStatus = PaymentPending | Paid | PartiallyPaid | Refunded | PaymentFailed

  const BookingStatuses: seq<BookingStatus> :=
    [Pending, Confirmed, CheckedIn, CheckedOut, Cancelled, NoShow]

  const PaymentStatuses: seq<PaymentStatus> :=
    [PaymentPending, Paid, PartiallyPaid, Refunded, PaymentFailed]

  /** The enumeration lists every booking status once and there are six of them. */
  lemma BookingStatusesExactlySix(s: BookingStatus)
    ensures s in BookingStatuses
    ensures |BookingStatuses| == 6
    ensures forall i, j :: 0 <= i < j < |BookingStatuses| ==> BookingStatuses[i] != BookingStatuses[j]
  {
  }

  /** The enumeration lists every payment status once and there are five of them. */
  lemma PaymentStatusesExactlyFive(s: PaymentStatus)
    ensures s in PaymentStatuses
    ensures |PaymentStatuses| == 5
    ensures forall i, j :: 0 <= i < j < |PaymentStatuses| ==> PaymentStatuses[i] != PaymentStatuses[j]
  {
  }

  /** `BookingStatus.name()`. */
  function BookingStatusName(s: BookingStatus): string
  {
    match s
    case Pending => "PENDING"
    case Confirmed => "CONFIRMED"
    case CheckedIn => "CHECKED_IN"
    case CheckedOut => "CHECKED_OUT"
    case Cancelled => "CANCELLED"
    case NoShow => "NO_SHOW"
  }

  /** `BookingStatus.valueOf(name)`: the exact constant name, anything else is refused. */
  function ParseBookingStatus(name: string): (r: Result<BookingStatus>)
    ensures r.Ok? ==> BookingStatusName(r.value) == name
    ensures r.Err? ==> r.failure == IllegalArgument && forall s :: BookingStatusName(s) != name
  {
    if name == "PENDING" then Ok(Pending)
    else if name == "CONFIRMED" then Ok(Confirmed)
    else if name == "CHECKED_IN" then Ok(CheckedIn)
    else if name == "CHECKED_OUT" then Ok(CheckedOut)
    else if name == "CANCELLED" then Ok(Cancelled)
    else if name == "NO_SHOW" then Ok(NoShow)
    else Err(IllegalArgument)
  }

  /** `PaymentStatus.name()`. */
  function PaymentStatusName(s: PaymentStatus): string
  {
    match s
    case PaymentPending => "PENDING"
    case Paid => "PAID"
    case PartiallyPaid => "PARTIALLY_PAID"
    case Refunded => "REFUNDED"
    case PaymentFailed => "FAILED"
  }

  /** `PaymentStatus.valueOf(name)`. */
  function ParsePaymentStatus(name: string): (r: Result<PaymentStatus>)
    ensures r.Ok? ==> PaymentStatusName(r.value) == name
    ensures r.Err? ==> r.failure == IllegalArgument && forall s :: PaymentStatusName(s) != name
  {
    if name == "PENDING" then Ok(PaymentPending)
    else if name == "PAID" then Ok(Paid)
    else if name == "PARTIALLY_PAID" then Ok(PartiallyPaid)
    else if name == "REFUNDED" then Ok(Refunded)
    else if name == "FAILED" then Ok(PaymentFailed)
    else Err(IllegalArgument)
  }

  /** Parsing the name of a status gives that status back. */
  lemma StatusNamesRoundTrip(s: BookingStatus, p: PaymentStatus)
    ensures ParseBookingStatus(BookingStatusName(s)) == Ok(s)
    ensures ParsePaymentStatus(PaymentStatusName(p)) == Ok(p)
  {
  }

  /** A booking row. Dates are day numbers, money is in minor units (cents); a Java
      `null` column is `None`. `cancelledAt` is a timestamp in the same abstract unit
      as the clock the caller passes in. */
  datatype Booking = Booking(
    id: nat,
    userId: nat,
    roomId: nat,
    checkIn: int,
    checkOut: int,
    guests: int,
    totalPrice: int,
    status: BookingStatus,
    specialRequests: Option<string>,
    confirmationNumber: string,
    paymentStatus: PaymentStatus,
    paymentMethod: Option<string>,
    paidAmount: Option<int>,
    cancelledAt: Option<int>,
    cancellationReason: Option<string>)
  {
    /** `getNumberOfNights`: whole days from check-in to check-out. */
    function NumberOfNights(): int
    {
      checkOut - checkIn
    }

    /** `isActive`: the status is none of CANCELLED, CHECKED_OUT, NO_SHOW; over the six
        statuses this is the same as being PENDING, CONFIRMED or CHECKED_IN. */
    predicate IsActive(): (r: bool)
      ensures r <==> status in {Pending, Confirmed, CheckedIn}
    {
      status != Cancelled && status != CheckedOut && status != NoShow
    }

    /** `canBeCancelled`: PENDING or CONFIRMED, i.e. active and not yet checked in. */
    predicate CanBeCancelled(): (r: bool)
      ensures r <==> IsActive() && status != CheckedIn
    {
      status == Pending || status == Confirmed
    }
  }

  /** `Booking.builder()...build()` leaving status, payment status and every optional
      payment and cancellation column unset: the builder defaults apply. */
  function NewBooking(id: nat, userId: nat, roomId: nat, checkIn: int, checkOut: int,
                      guests: int, totalPrice: int, specialRequests: Option<string>,
                      confirmationNumber: string, paymentMethod: Option<string>): (b: Booking)
    ensures b.status == Pending && b.paymentStatus == PaymentPending
    ensures b.paidAmount.None? && b.cancelledAt.None? && b.cancellationReason.None?
    ensures b.IsActive() && b.CanBeCancelled()
  {
    Booking(id, userId, roomId, checkIn, checkOut, guests, totalPrice, Pending,
            specialRequests, confirmationNumber, PaymentPending, paymentMethod,
            None, None, None)
  }
}

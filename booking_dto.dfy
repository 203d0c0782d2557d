/** The monolith's booking request bodies and their bean-validation constraints. */
module BookingRequests {
  import opened Wrappers
  import opened Text
  import opened Bookings
  import opened BookingRules
  import opened Constraints

  datatype CreateRequest = CreateRequest(
    userId: Option<nat>,
    roomId: Option<nat>,
    checkIn: Option<int>,
    checkOut: Option<int>,
    guests: Option<int>,
    specialRequests: Option<string>,
    paymentMethod: Option<string>)
  {
    /** The fields the service dereferences without a null check. */
    predicate HasRequiredFields()
    {
      userId.Some? && roomId.Some? && checkIn.Some? && checkOut.Some? && guests.Some?
    }

    predicate IsValid(today: int)
    {
      && HasRequiredFields()
      && TodayOrLater(checkIn, today)
      && AfterToday(checkOut, today)
      && Between(guests, 1, 10)
      && SizeAtMost(specialRequests, 1000)
      && SizeAtMost(paymentMethod, 50)
    }
  }

  datatype UpdateRequest = UpdateRequest(
    checkIn: Option<int>,
    checkOut: Option<int>,
    guests: Option<int>,
    specialRequests: Option<string>,
    status: Option<BookingStatus>,
    paymentStatus: Option<PaymentStatus>,
    paymentMethod: Option<string>,
    paidAmount: Option<int>)
  {
    predicate IsValid(today: int)
    {
      && TodayOrLater(checkIn, today)
      && AfterToday(checkOut, today)
      && Between(guests, 1, 10)
      && SizeAtMost(specialRequests, 1000)
      && SizeAtMost(paymentMethod, 50)
      && AtLeast(paidAmount, 0)
    }
  }

  datatype CancelRequest = CancelRequest(cancellationReason: Option<string>)
  {
    predicate IsValid()
    {
      NotBlank(cancellationReason) && SizeAtMost(cancellationReason, 500)
    }
  }

  datatype ConfirmRequest = ConfirmRequest(paymentAmount: Option<int>, paymentMethod: Option<string>)
  {
    predicate IsValid()
    {
      paymentAmount.Some? && Positive(paymentAmount) && NotBlank(paymentMethod)
    }
  }

  /** A valid create request carries every required field, a guest count of 1 to 10, a
      check-in from today and a check-out after today. */
  lemma ValidCreateRequestShape(req: CreateRequest, today: int)
    requires req.IsValid(today)
    ensures req.userId.Some? && req.roomId.Some? && req.guests.Some?
    ensures 1 <= req.guests.value <= 10
    ensures req.checkIn.Some? && req.checkOut.Some?
    ensures today <= req.checkIn.value && today < req.checkOut.value
  {
  }

  /** The annotations do not order the two dates nor bound the stay: some valid create
      requests are refused by the service's own date check. */
  lemma AnnotationsAdmitRefusedDates(today: int)
    ensures exists req: CreateRequest :: req.IsValid(today)
              && ValidateBookingDates(req.checkIn.value, req.checkOut.value, today)
                 == Some(CheckOutNotAfterCheckIn)
    ensures exists req: CreateRequest :: req.IsValid(today)
              && ValidateBookingDates(req.checkIn.value, req.checkOut.value, today) == Some(StayTooLong)
  {
    var backwards := CreateRequest(Some(1), Some(1), Some(today + 5), Some(today + 2), Some(1), None, None);
    assert backwards.IsValid(today);
    var tooLong := CreateRequest(Some(1), Some(1), Some(today), Some(today + 31), Some(1), None, None);
    assert tooLong.IsValid(today);
  }

  /** Conversely, dates the service accepts always satisfy the two date annotations. */
  lemma AcceptedDatesSatisfyAnnotations(checkIn: int, checkOut: int, today: int)
    requires ValidateBookingDates(checkIn, checkOut, today).None?
    ensures today <= checkIn && today < checkOut
  {
  }

  /** An update request may leave every field out. */
  lemma EmptyUpdateIsValid(today: int)
    ensures UpdateRequest(None, None, None, None, None, None, None, None).IsValid(today)
  {
  }

  /** A cancellation reason of spaces, tabs or line breaks only is refused, as is a
      missing one. */
  lemma BlankReasonRefused(reason: string)
    requires forall i :: 0 <= i < |reason| ==> reason[i] <= ' '
    ensures !CancelRequest(Some(reason)).IsValid()
    ensures !CancelRequest(None).IsValid()
  {
    BlankIffAllSpace(reason);
  }

  /** A confirm request needs a positive amount and a method with a visible character. */
  lemma ConfirmRequestNeedsAmountAndMethod(req: ConfirmRequest)
    ensures req.IsValid() <==> req.paymentAmount.Some? && req.paymentAmount.value > 0
                               && req.paymentMethod.Some?
                               && exists i :: 0 <= i < |req.paymentMethod.value| && req.paymentMethod.value[i] > ' '
  {
    NotBlankIffVisibleCharacter(req.paymentMethod);
  }
}

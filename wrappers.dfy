/** Optional values, results and the error taxonomy shared by every service.
    A Java `null` becomes `None`; a thrown exception becomes `Err(...)`. */
module Wrappers {

  datatype Option<+T> = None | Some(value: T)
  {
    function GetOr(default: T): T
    {
      match this
      case Some(v) => v
      case None => default
    }

    /** This value if present, otherwise `other`. */
    function Or(other: Option<T>): Option<T>
    {
      if Some? then this else other
    }
  }

  /** The kind of record a lookup failed to find. */
  datatype Entity = BookingEntity | RoomEntity | UserEntity | HotelEntity | PaymentEntity

  /** Why a business rule refused an operation (the message of the exception, as a value). */
  datatype Reason =
    // booking dates
    | PastCheckIn | CheckOutNotAfterCheckIn | StayTooLong
    // booking creation and update
    | RoomNotAvailable | RoomAlreadyBooked | TooManyGuests | NotUpdatable | DatesUnavailable
    // booking lifecycle
    | NotCancellable | NotPending | NotConfirmed | TooEarly | NotCheckedIn | StillActive
    // payments
    | PaymentExists | NotRefundable
    // rooms
    | DuplicateRoomNumber | CheckInAfterCheckOut
    // users
    | UsernameTaken | EmailTaken | BadCredentials | AccountDisabled

  /** The exceptions the services throw, by class. */
  datatype Failure =
    | NotFound(entity: Entity)       // ResourceNotFoundException
    | Business(reason: Reason)       // BusinessException
    | AlreadyExists(reason: Reason)  // ResourceAlreadyExistsException
    | Runtime(reason: Reason)        // plain RuntimeException
    | IllegalArgument                // Enum.valueOf given an unknown name
    | ConstraintViolation            // a unique column refused the save
    | RemoteFailure                  // a call to another service failed and was not caught
    | NullReference                  // a null value was dereferenced

  datatype Result<+T> = Ok(value: T) | Err(failure: Failure)
}

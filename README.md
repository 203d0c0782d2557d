# Hotel booking core, modelled in Dafny

A model of the business core of the SASPS hotel-booking system, which exists twice:
as a Spring Boot monolith and as a set of microservices (booking, payment and room
services). The model covers:

- **Bookings**: the booking record, its two status enumerations, the lifecycle (create,
  update, cancel, confirm, check-in, check-out, delete) and the availability queries.
  The monolith version works on one shared database. The booking microservice owns only
  the booking table and calls the room and payment services.
- **Rooms and hotels**: creation, partial update, status change, the availability search,
  the hotel search and the per-status statistics, in both variants.
- **Users** (monolith): registration and login.
- **Payments** (microservice): creation through a simulated gateway, refund, deletion and
  the lookups.
- **Request bodies**: their bean-validation constraints, and what the constraints
  do and do not guarantee to the services.

The central invariant is *no double booking*: no two bookings of the same room that
hold it (PENDING, CONFIRMED or CHECKED_IN) have overlapping stays, with the inclusive
overlap test of the JPQL queries. Creation and every lifecycle transition are proved to
keep it. The update, as the source writes it, does not keep it (see Findings).

How the model is built:

- A store is a `class` whose tables are `map` fields keyed by id. The monolith uses one
  `MonolithStore.Database`. The microservices use `BookingMicroservice.BookingService`,
  `PaymentService.PaymentStore` and `RoomCatalogue.Catalogue`.
- Each service operation is a method on its store. Where an outcome has properties
  worth proving, the method is specified by a function of the old state, and the
  properties are lemmas about that function.
- A thrown exception is an `Err` of `Wrappers.Failure`, and a method that returns one
  leaves the store unchanged, as `@Transactional` rolls back.
- Dates are day numbers and money is an integer number of cents.
- Inputs are parameters: the current date and time, random UUIDs, the payment
  gateway's verdict, password hashing, and the answers of other services.
- A best-effort call to another service is an out-parameter recording the request that
  was sent. A failure of that call cannot change the result or the store: this holds by
  construction, since no method takes the outcome of such a call as an input.

## Model

| member | source | states |
|---|---|---|
| Bookings.BookingStatusesExactlySix | microservices/booking-service/src/main/java/com/sasps/bookingservice/model/Booking.java:94-101 | every booking status is one of exactly six distinct constants |
| Bookings.PaymentStatusesExactlyFive | microservices/booking-service/src/main/java/com/sasps/bookingservice/model/Booking.java:103-109 | every payment status is one of exactly five distinct constants |
| Bookings.ParseBookingStatus | microservices/booking-service/src/main/java/com/sasps/bookingservice/model/Booking.java:94-101 | `valueOf` succeeds only on a constant's exact name and returns that constant; any other string is an IllegalArgument |
| Bookings.ParsePaymentStatus | microservices/booking-service/src/main/java/com/sasps/bookingservice/model/Booking.java:103-109 | the same for payment statuses |
| Bookings.StatusNamesRoundTrip | microservices/booking-service/src/main/java/com/sasps/bookingservice/model/Booking.java:94-109 | parsing the name of any status gives that status back |
| Bookings.Booking.IsActive | microservices/booking-service/src/main/java/com/sasps/bookingservice/model/Booking.java:116-121 | active exactly when the status is PENDING, CONFIRMED or CHECKED_IN, i.e. none of CANCELLED, CHECKED_OUT, NO_SHOW |
| Bookings.Booking.CanBeCancelled | microservices/booking-service/src/main/java/com/sasps/bookingservice/model/Booking.java:123-125 | cancellable exactly when active and not checked in, so cancellable implies active |
| Bookings.NewBooking | microservices/booking-service/src/main/java/com/sasps/bookingservice/model/Booking.java:58-72 | a freshly built booking is PENDING with payment PENDING, no paid amount and no cancellation, hence active and cancellable |
| BookingRules.ValidateBookingDates | monolith/src/main/java/com/sasps/hotelbooking/service/BookingService.java:368-379 | accepts exactly today <= check-in < check-out <= check-in + 30, and names which of the three rules failed, past check-in first |
| BookingRules.ValidatedStayNights | microservices/booking-service/src/main/java/com/sasps/bookingservice/model/Booking.java:111-114 | a stay that passed the date check lasts between 1 and 30 nights |
| BookingRules.ConfirmationNumber | monolith/src/main/java/com/sasps/hotelbooking/service/BookingService.java:381-383 | "BK-" followed by eight upper-case hex digits taken from the UUID |
| BookingRules.ConfirmationNumbersCollide | microservices/booking-service/src/main/java/com/sasps/bookingservice/service/BookingService.java:353-355 | two confirmation numbers are equal exactly when the two UUIDs share their first eight characters |
| BookingRules.OverlapsSymmetric | monolith/src/main/java/com/sasps/hotelbooking/repository/BookingRepository.java:43-45 | the inclusive overlap test gives the same answer whichever of the two ranges is the stored one |
| BookingRules.BackToBackStaysConflict | monolith/src/main/java/com/sasps/hotelbooking/repository/BookingRepository.java:43-45 | with inclusive ends, a stay checking out on day d conflicts with one checking in on day d |
| BookingRules.Cancel | monolith/src/main/java/com/sasps/hotelbooking/service/BookingService.java:257-273 | succeeds exactly from PENDING or CONFIRMED, setting CANCELLED, the time and the reason; otherwise NotCancellable |
| BookingRules.Confirm | monolith/src/main/java/com/sasps/hotelbooking/service/BookingService.java:276-294 | succeeds exactly from PENDING, setting CONFIRMED, PAID, the method and the amount; otherwise NotPending |
| BookingRules.CheckIn | monolith/src/main/java/com/sasps/hotelbooking/service/BookingService.java:297-315 | succeeds exactly when CONFIRMED and the check-in day has come; NotConfirmed and TooEarly are told apart |
| BookingRules.CheckOut | monolith/src/main/java/com/sasps/hotelbooking/service/BookingService.java:318-333 | succeeds exactly from CHECKED_IN, setting CHECKED_OUT; otherwise NotCheckedIn |
| BookingRules.ApplyAdvances | monolith/src/main/java/com/sasps/hotelbooking/service/BookingService.java:257-333 | every accepted lifecycle request moves the status strictly forward and keeps room, guest, dates, price and confirmation number |
| BookingRules.RunIsMonotone | monolith/src/main/java/com/sasps/hotelbooking/service/BookingService.java:257-333 | along any sequence of requests the status never moves back, the stay never changes, and at most three requests are accepted |
| BookingRules.TerminalIsFinal | monolith/src/main/java/com/sasps/hotelbooking/service/BookingService.java:257-333 | a CANCELLED, CHECKED_OUT or NO_SHOW booking is refused by every lifecycle request |
| MonolithBookingRepository.HoldsIffActive | monolith/src/main/java/com/sasps/hotelbooking/repository/BookingRepository.java:43-45 | the status list of the overlap queries is exactly the active statuses |
| MonolithBookingRepository.IsRoomAvailable | monolith/src/main/java/com/sasps/hotelbooking/repository/BookingRepository.java:50-55 | available exactly when no stored booking of the room with a holding status overlaps the dates |
| MonolithBookingRepository.AvailableIffNoOverlapping | monolith/src/main/java/com/sasps/hotelbooking/repository/BookingRepository.java:43-55 | `isRoomAvailable` holds exactly when `findOverlappingBookings` returns nothing |
| MonolithBookingRepository.TodayListsPassTheirGuards | monolith/src/main/java/com/sasps/hotelbooking/repository/BookingRepository.java:28-41 | each booking listed for check-in (check-out) today passes the check-in (check-out) guard today; each upcoming one can be cancelled |
| MonolithBookingRepository.OrderByCheckIn | monolith/src/main/java/com/sasps/hotelbooking/repository/BookingRepository.java:25 | lists each booking of a set exactly once, in ascending check-in order |
| MonolithBookingRepository.FindActiveBookingsByUserId | monolith/src/main/java/com/sasps/hotelbooking/repository/BookingRepository.java:23-26 | exactly the user's active bookings, each once, by ascending check-in |
| MonolithBookingRepository.FindUpcomingBookings | monolith/src/main/java/com/sasps/hotelbooking/repository/BookingRepository.java:28-31 | exactly the PENDING and CONFIRMED bookings starting after the date, each once, by ascending check-in |
| MonolithBookingRepository.WriteUnblockedKeepsNoDoubleBooking | monolith/src/main/java/com/sasps/hotelbooking/repository/BookingRepository.java:43-48 | writing a booking that no other holding booking of its room overlaps keeps the table free of double bookings |
| MonolithBookingRepository.WriteSameStayKeepsNoDoubleBooking | monolith/src/main/java/com/sasps/hotelbooking/service/BookingService.java:257-333 | rewriting a booking with the same room and dates that holds no more than before keeps the table free of double bookings |
| MonolithBookingRepository.RemoveKeepsNoDoubleBooking | monolith/src/main/java/com/sasps/hotelbooking/service/BookingService.java:336-345 | deleting a row cannot create a double booking |
| BookingMicroserviceRepository.IsRoomAvailable | microservices/booking-service/src/main/java/com/sasps/bookingservice/repository/BookingRepository.java:25-31 | available exactly when no active booking of the room overlaps the dates (NOT IN CANCELLED, CHECKED_OUT, NO_SHOW) |
| BookingMicroserviceRepository.FindActiveBookingsByUserId | microservices/booking-service/src/main/java/com/sasps/bookingservice/repository/BookingRepository.java:22-23 | exactly the user's PENDING, CONFIRMED and CHECKED_IN bookings |
| BookingMicroserviceRepository.AvailabilityAgreesWithMonolith | microservices/booking-service/src/main/java/com/sasps/bookingservice/repository/BookingRepository.java:25-31 | over the six statuses the NOT IN list equals the monolith's IN list, so both availability checks agree on every table |
| BookingMicroserviceRepository.CheckedOutBlocksUpdateNotCreate | microservices/booking-service/src/main/java/com/sasps/bookingservice/repository/BookingRepository.java:25-38 | on any table, a CHECKED_OUT row leaves the availability check's answer as if it were not stored, yet the overlap query reports it exactly when it overlaps the dates |
| BookingMicroserviceRepository.OverlapQueryCoversAvailability | microservices/booking-service/src/main/java/com/sasps/bookingservice/repository/BookingRepository.java:25-38 | every booking the availability check counts is also returned by the overlap query |
| BookingRequests.ValidCreateRequestShape | monolith/src/main/java/com/sasps/hotelbooking/dto/BookingDto.java:42-67 | a valid create request carries user, room, dates and 1 to 10 guests, with check-in today or later and check-out after today |
| BookingRequests.AnnotationsAdmitRefusedDates | monolith/src/main/java/com/sasps/hotelbooking/dto/BookingDto.java:49-55 | the annotations let through requests the service then refuses: check-out not after check-in, or more than 30 nights |
| BookingRequests.AcceptedDatesSatisfyAnnotations | monolith/src/main/java/com/sasps/hotelbooking/dto/BookingDto.java:49-55 | dates the service accepts always satisfy both date annotations |
| BookingRequests.EmptyUpdateIsValid | monolith/src/main/java/com/sasps/hotelbooking/dto/BookingDto.java:73-95 | an update request may leave every field out |
| BookingRequests.BlankReasonRefused | monolith/src/main/java/com/sasps/hotelbooking/dto/BookingDto.java:101-105 | a missing or whitespace-only cancellation reason is refused |
| BookingRequests.ConfirmRequestNeedsAmountAndMethod | monolith/src/main/java/com/sasps/hotelbooking/dto/BookingDto.java:111-118 | a confirm request is valid exactly with a positive amount and a method holding a visible character |
| Constraints.NotBlankIffVisibleCharacter | monolith/src/main/java/com/sasps/hotelbooking/dto/BookingDto.java:102 | `@NotBlank` refuses exactly the missing value and the whitespace-only strings |
| HotelRequests.PlusSignOptional | monolith/src/main/java/com/sasps/hotelbooking/dto/HotelDto.java:62 | a phone number of 10 to 20 digits matches with or without a leading plus sign |
| HotelRequests.PhoneShape | monolith/src/main/java/com/sasps/hotelbooking/dto/HotelDto.java:62 | a matching phone number is an optional plus sign followed by 10 to 20 digits |
| HotelRequests.CreateBoundsImplyUpdateBounds | monolith/src/main/java/com/sasps/hotelbooking/dto/HotelDto.java:39-129 | a valid create request is a valid update; the update may omit the four fields the create requires |
| HotelRequests.ValidCreateRequestShape | monolith/src/main/java/com/sasps/hotelbooking/dto/HotelDto.java:39-74 | a valid create request has a visible character in name, address, city and country, and a star rating in 1..5 |
| RoomRequests.CreateRequest.NewRoom | monolith/src/main/java/com/sasps/hotelbooking/service/RoomService.java:57-66 | the new room copies the request, with status AVAILABLE when none is given |
| RoomRequests.ValidCreateFitsColumns | monolith/src/main/java/com/sasps/hotelbooking/dto/RoomDto.java:37-72 | a room built from a valid request fits the columns, has a positive price, 1 to 10 guests and a visible room number |
| RoomRequests.ValidUpdateFitsColumns | monolith/src/main/java/com/sasps/hotelbooking/dto/RoomDto.java:78-106 | a valid update keeps a room within the columns |
| RoomRequests.SearchBoundsUnordered | monolith/src/main/java/com/sasps/hotelbooking/dto/RoomDto.java:112-132 | the search constraints order neither the two prices nor the two dates |
| RoomServiceRequests.ParseOptionalStatus | microservices/room-service/src/main/java/com/sasps/roomservice/service/RoomService.java:114 | an absent status stays absent; a given one parses exactly when it is a constant's name |
| RoomServiceRequests.ParseOptionalType | microservices/room-service/src/main/java/com/sasps/roomservice/service/RoomService.java:136 | the same for room types |
| RoomServiceRequests.CreateRequest.NewRoom | microservices/room-service/src/main/java/com/sasps/roomservice/service/RoomService.java:104-115 | the row `createRoom` builds: type and status names parsed, status AVAILABLE when absent, IllegalArgument for an unknown name |
| RoomServiceRequests.UpdateRequest.Changes | microservices/room-service/src/main/java/com/sasps/roomservice/service/RoomService.java:135-143 | the typed changes, failing exactly when the type or the status name is unknown |
| RoomServiceRequests.SameRoomAsMonolith | microservices/room-service/src/main/java/com/sasps/roomservice/dto/RoomDto.java:40-75 | a monolith create request spelled with constant names is valid here and builds the very same room |
| RoomServiceRequests.ValidRequestRefusedByValueOf | microservices/room-service/src/main/java/com/sasps/roomservice/dto/RoomDto.java:40-75 | a request passing every annotation can still be refused by `valueOf` (a lower-case type name) |
| Rooms.EnumsAreComplete | microservices/room-service/src/main/java/com/sasps/roomservice/model/Room.java:74-99 | there are exactly six room types and five room statuses, each listed once |
| Rooms.ParseRoomType | microservices/room-service/src/main/java/com/sasps/roomservice/model/Room.java:74-91 | `valueOf` succeeds only on a constant's exact name; anything else is an IllegalArgument |
| Rooms.ParseRoomStatus | microservices/room-service/src/main/java/com/sasps/roomservice/model/Room.java:93-99 | the same for room statuses |
| Rooms.RoomNamesRoundTrip | microservices/room-service/src/main/java/com/sasps/roomservice/model/Room.java:74-99 | parsing a constant's name gives it back; a display name is refused |
| Rooms.InsertFreeNumberKeepsUnique | microservices/room-service/src/main/java/com/sasps/roomservice/model/Room.java:16-20 | inserting a room whose number is free in its hotel keeps (room number, hotel) unique |
| Rooms.RewriteKeepsUnique | microservices/room-service/src/main/java/com/sasps/roomservice/model/Room.java:16-20 | rewriting a room that keeps its hotel and its own or a free number keeps (room number, hotel) unique |
| Rooms.ApplyChanges | microservices/room-service/src/main/java/com/sasps/roomservice/service/RoomService.java:135-143 | a partial update never changes the room's id or hotel |
| Rooms.ChangesKeepOmittedFields | monolith/src/main/java/com/sasps/hotelbooking/service/RoomService.java:84-110 | an empty update changes nothing, an update applied twice is applied once, and an omitted field keeps its value |
| Hotels.ApplyChanges | monolith/src/main/java/com/sasps/hotelbooking/service/HotelService.java:82-120 | a partial update never changes the hotel's id |
| Hotels.ChangesKeepOmittedFields | microservices/room-service/src/main/java/com/sasps/roomservice/service/HotelService.java:75-87 | an empty update changes nothing, an update applied twice is applied once, and an omitted field keeps its value |
| Seqs.FilterKeepsOrder | microservices/room-service/src/main/java/com/sasps/roomservice/service/RoomService.java:66-90 | a stream filter over a concatenated list is the concatenation of the filtered parts (order is kept) |
| Seqs.FilterIdempotent | microservices/room-service/src/main/java/com/sasps/roomservice/service/RoomService.java:66-90 | filtering twice with the same test is filtering once |
| MonolithBookingService.CreateOutcome | monolith/src/main/java/com/sasps/hotelbooking/service/BookingService.java:141-199 | succeeds exactly when dates, user, room, room status, availability and guest count all pass and the confirmation number is unused; each failure is pinned to the first failing check in source order, a repeated number last as a constraint violation; a success is CONFIRMED and PAID, priced at rate times nights |
| MonolithBookingService.CreateKeepsNoDoubleBooking | monolith/src/main/java/com/sasps/hotelbooking/service/BookingService.java:156-161 | a created booking never double-books its room |
| MonolithBookingService.CreateBooking | monolith/src/main/java/com/sasps/hotelbooking/service/BookingService.java:141-199 | stores exactly the outcome's booking under a fresh id, stores nothing on error, and keeps the table free of double bookings and its confirmation numbers unique |
| MonolithBookingService.UpdateOutcome | monolith/src/main/java/com/sasps/hotelbooking/service/BookingService.java:202-254 | as written (guarded false): NotFound, NotUpdatable for CANCELLED/CHECKED_OUT; succeeds exactly when the booking is not terminal, the dates (checked only when a date is given) pass the date and self-excluding overlap tests, and the guests fit the room; each refusal is pinned in source order; status and payment status overwritten with no transition guard |
| MonolithBookingService.UpdateKeepsNoDoubleBookingWhenChecked | monolith/src/main/java/com/sasps/hotelbooking/service/BookingService.java:210-229 | an update that ran the overlap check, or that does not make the booking hold its room anew, keeps the table free of double bookings |
| MonolithBookingService.UpdateReopensNoShow | monolith/src/main/java/com/sasps/hotelbooking/service/BookingService.java:239-241 | counterexample: setting a NO_SHOW booking back to CONFIRMED without dates double-books the room |
| MonolithBookingService.GuardedUpdateKeepsNoDoubleBooking | monolith/src/main/java/com/sasps/hotelbooking/service/BookingService.java:210-241 | with the overlap check also run on reactivation, every accepted update keeps the table free of double bookings |
| MonolithBookingService.UpdateBooking | monolith/src/main/java/com/sasps/hotelbooking/service/BookingService.java:202-254 | the corrected update: stores exactly the guarded outcome and keeps the table free of double bookings |
| MonolithBookingService.TransitionOutcome | monolith/src/main/java/com/sasps/hotelbooking/service/BookingService.java:257-333 | NotFound for an unknown id; an accepted request keeps the stay |
| MonolithBookingService.TransitionKeepsNoDoubleBooking | monolith/src/main/java/com/sasps/hotelbooking/service/BookingService.java:257-333 | no lifecycle request can create a double booking |
| MonolithBookingService.Transition | monolith/src/main/java/com/sasps/hotelbooking/service/BookingService.java:257-333 | writes exactly the transition outcome and keeps the table free of double bookings |
| MonolithBookingService.CancelBooking | monolith/src/main/java/com/sasps/hotelbooking/service/BookingService.java:257-273 | NotFound, or the Cancel outcome written to that one row |
| MonolithBookingService.ConfirmBooking | monolith/src/main/java/com/sasps/hotelbooking/service/BookingService.java:276-294 | NotFound, or the Confirm outcome written to that one row |
| MonolithBookingService.CheckInBooking | monolith/src/main/java/com/sasps/hotelbooking/service/BookingService.java:297-315 | NotFound, or the CheckIn outcome written, with the room set OCCUPIED on success |
| MonolithBookingService.CheckOutBooking | monolith/src/main/java/com/sasps/hotelbooking/service/BookingService.java:318-333 | NotFound, or the CheckOut outcome written, with the room set AVAILABLE on success |
| MonolithBookingService.DeleteBooking | monolith/src/main/java/com/sasps/hotelbooking/service/BookingService.java:336-345 | refused exactly when the booking is missing (NotFound) or active (StillActive); otherwise removes only that row |
| MonolithBookingService.GetUserActiveBookings | monolith/src/main/java/com/sasps/hotelbooking/service/BookingService.java:120-128 | NotFound exactly for an unknown user; otherwise the user's active bookings, each once (length equals the number of such bookings), by ascending check-in |
| MonolithRoomRepository.AvailableRoomsAreBookable | monolith/src/main/java/com/sasps/hotelbooking/repository/RoomRepository.java:28-33 | the date query returns exactly the AVAILABLE rooms for which `isRoomAvailable` holds on the same dates |
| MonolithRoomRepository.VariantsNarrowTheDateQuery | monolith/src/main/java/com/sasps/hotelbooking/repository/RoomRepository.java:35-49 | the hotel and type queries are the date query restricted to that hotel or type |
| MonolithRoomRepository.SumOfCountsIsCount | monolith/src/main/java/com/sasps/hotelbooking/repository/RoomRepository.java:52 | summing `countByStatus` over distinct statuses counts the rooms having any of them |
| MonolithRoomRepository.CountsAddUpToRooms | monolith/src/main/java/com/sasps/hotelbooking/repository/RoomRepository.java:52 | the five per-status counts add up to the number of rooms |
| MonolithRoomService.CreateRoom | monolith/src/main/java/com/sasps/hotelbooking/service/RoomService.java:48-71 | NotFound for an unknown hotel, AlreadyExists for a number taken in that hotel, otherwise the new room (AVAILABLE by default) under a fresh id; nothing stored on error |
| MonolithRoomService.UpdateRoom | monolith/src/main/java/com/sasps/hotelbooking/service/RoomService.java:74-114 | NotFound; a rename to a number another room of the hotel uses is refused (keeping its own is not); succeeds exactly otherwise, and then only the given fields change |
| MonolithRoomService.UpdateRoomStatus | monolith/src/main/java/com/sasps/hotelbooking/service/RoomService.java:182-190 | succeeds exactly for a stored room, and only the status of that one room changes |
| MonolithRoomService.SearchAvailableRooms | monolith/src/main/java/com/sasps/hotelbooking/service/RoomService.java:139-179 | refuses check-in after check-out and a past check-in; otherwise exactly the date-available rooms in the hotel (or of the type) meeting the inclusive price and occupancy bounds |
| MonolithRoomService.SearchResultsAreBookable | monolith/src/main/java/com/sasps/hotelbooking/service/RoomService.java:170-178 | each result is AVAILABLE, passes `isRoomAvailable` for the dates and lies within the price bounds |
| MonolithRoomService.HotelSearchIgnoresRoomType | monolith/src/main/java/com/sasps/hotelbooking/service/RoomService.java:149-163 | with a hotel id, the requested room type makes no difference |
| MonolithRoomService.RoomStatisticsByStatus | monolith/src/main/java/com/sasps/hotelbooking/service/RoomService.java:192-199 | one entry for every status, holding the number of rooms with that status |
| MonolithRoomService.StatisticsCoverEveryRoom | monolith/src/main/java/com/sasps/hotelbooking/service/RoomService.java:192-199 | the five entries add up to the number of rooms |
| MonolithHotelService.CreateHotel | monolith/src/main/java/com/sasps/hotelbooking/service/HotelService.java:55-75 | every field copied from the request, stored under a fresh id, active unless the request says otherwise |
| MonolithHotelService.UpdateHotel | monolith/src/main/java/com/sasps/hotelbooking/service/HotelService.java:78-124 | NotFound exactly for an unknown hotel, success exactly for a stored one, and only the given fields change |
| MonolithHotelService.SearchHotels | monolith/src/main/java/com/sasps/hotelbooking/service/HotelService.java:149-169 | exactly the active hotels (with an AVAILABLE room when asked) matching city and country ignoring case, a minimum rating, and the term in name or city |
| MonolithHotelService.SearchSkipsInactiveAndUnrated | monolith/src/main/java/com/sasps/hotelbooking/service/HotelService.java:152-163 | an inactive hotel is never found, nor an unrated one once a minimum rating is asked for |
| MonolithHotelService.EmptyTermMatchesEveryHotel | monolith/src/main/java/com/sasps/hotelbooking/service/HotelService.java:164-166 | an empty search term filters nothing |
| MonolithHotelService.ToView | monolith/src/main/java/com/sasps/hotelbooking/service/HotelService.java:171-195 | available rooms <= total rooms, and available > 0 exactly when the hotel has an AVAILABLE room |
| MonolithHotelService.AvailableRoomsFilterAgreesWithView | monolith/src/main/java/com/sasps/hotelbooking/repository/HotelRepository.java:23-24 | with available rooms asked for, the search keeps exactly the hotels whose view shows an available room |
| MonolithUserService.ResolveRole | monolith/src/main/java/com/sasps/hotelbooking/service/UserService.java:33-41 | the upper-cased name when it names a role, otherwise CUSTOMER; always a role |
| MonolithUserService.NormalisePhone | monolith/src/main/java/com/sasps/hotelbooking/service/UserService.java:50-51 | a missing, empty or whitespace-only phone becomes null; any other is kept |
| MonolithUserService.Register | monolith/src/main/java/com/sasps/hotelbooking/service/UserService.java:21-68 | UsernameTaken exactly when the user name is in use, then EmailTaken exactly when the e-mail is, success exactly when both are free; nothing stored on error; the new user is enabled and unverified |
| MonolithUserService.FindByEmail | monolith/src/main/java/com/sasps/hotelbooking/service/UserService.java:72-73 | the one user holding the e-mail, exactly when one does |
| MonolithUserService.Login | monolith/src/main/java/com/sasps/hotelbooking/service/UserService.java:70-94 | succeeds exactly for an enabled user whose password matches; unknown e-mail and wrong password give the same error; AccountDisabled only with the right password |
| MonolithUserService.RegisteredUserCanLogIn | monolith/src/main/java/com/sasps/hotelbooking/service/UserService.java:57-83 | a stored enabled user logs in with the password that was encoded |
| BookingMicroservice.CreateOutcome | microservices/booking-service/src/main/java/com/sasps/bookingservice/service/BookingService.java:83-147 | succeeds exactly when dates, room lookup, "AVAILABLE" status, availability and guest count pass and the confirmation number is unused; each failure is pinned to the first failing check in source order; a success is PENDING, unpaid, priced at rate times nights |
| BookingMicroservice.CreateKeepsInvariants | microservices/booking-service/src/main/java/com/sasps/bookingservice/service/BookingService.java:100-135 | a created booking neither double-books its room nor repeats a confirmation number |
| BookingMicroservice.UpdateOutcome | microservices/booking-service/src/main/java/com/sasps/bookingservice/service/BookingService.java:150-209 | as written (guarded false): NotFound, NotUpdatable; succeeds exactly when the booking is not terminal, the dates (checked only when given) pass the date and overlap tests with the room fetched, and both status names parse; each refusal pinned in source order; no guest limit |
| BookingMicroservice.UpdateIgnoresOccupancy | microservices/booking-service/src/main/java/com/sasps/bookingservice/service/BookingService.java:187-190 | an update of the guest count alone is accepted whatever the count |
| BookingMicroservice.UpdateKeepsNumbers | microservices/booking-service/src/main/java/com/sasps/bookingservice/service/BookingService.java:150-209 | no accepted update changes a confirmation number, so they stay unique |
| BookingMicroservice.UpdateKeepsNoDoubleBookingWhenChecked | microservices/booking-service/src/main/java/com/sasps/bookingservice/service/BookingService.java:160-185 | an update that ran the overlap check, or does not make the booking hold its room anew, keeps the table free of double bookings |
| BookingMicroservice.UpdateReopensNoShow | microservices/booking-service/src/main/java/com/sasps/bookingservice/service/BookingService.java:193-195 | counterexample: setting a NO_SHOW booking back to CONFIRMED without dates double-books the room |
| BookingMicroservice.GuardedUpdateKeepsNoDoubleBooking | microservices/booking-service/src/main/java/com/sasps/bookingservice/service/BookingService.java:160-195 | with the overlap check also run on reactivation, every accepted update keeps the table free of double bookings |
| BookingMicroservice.TransitionKeepsNumbers | microservices/booking-service/src/main/java/com/sasps/bookingservice/service/BookingService.java:212-324 | lifecycle requests keep confirmation numbers unique |
| BookingMicroservice.BookingService.CreateBooking | microservices/booking-service/src/main/java/com/sasps/bookingservice/service/BookingService.java:83-147 | stores exactly the create outcome under a fresh id and then asks for the room to become RESERVED; nothing stored or asked on error |
| BookingMicroservice.BookingService.UpdateBooking | microservices/booking-service/src/main/java/com/sasps/bookingservice/service/BookingService.java:150-209 | the corrected update: stores exactly the guarded outcome and keeps the table free of double bookings |
| BookingMicroservice.BookingService.Transition | microservices/booking-service/src/main/java/com/sasps/bookingservice/service/BookingService.java:212-324 | writes exactly the transition outcome and keeps the table free of double bookings |
| BookingMicroservice.BookingService.CancelBooking | microservices/booking-service/src/main/java/com/sasps/bookingservice/service/BookingService.java:212-235 | the Cancel outcome written, then the room asked to become AVAILABLE |
| BookingMicroservice.BookingService.ConfirmBooking | microservices/booking-service/src/main/java/com/sasps/bookingservice/service/BookingService.java:238-274 | the Confirm outcome written, then a COMPLETED payment for the request amount posted; its failure changes nothing |
| BookingMicroservice.BookingService.CheckInBooking | microservices/booking-service/src/main/java/com/sasps/bookingservice/service/BookingService.java:277-301 | the room asked to become OCCUPIED, then the CheckIn outcome written; nothing asked on a refusal |
| BookingMicroservice.BookingService.CheckOutBooking | microservices/booking-service/src/main/java/com/sasps/bookingservice/service/BookingService.java:304-324 | the room asked to become AVAILABLE, then the CheckOut outcome written; nothing asked on a refusal |
| BookingMicroservice.BookingService.DeleteBooking | microservices/booking-service/src/main/java/com/sasps/bookingservice/service/BookingService.java:327-338 | refused while missing or active; otherwise removes only that row |
| PaymentService.TransactionId | microservices/payment-service/src/main/java/com/sasps/paymentservice/service/PaymentService.java:165-167 | "TXN-" followed by the 36-character UUID in upper case |
| PaymentService.TransactionIdsDistinguishUuids | microservices/payment-service/src/main/java/com/sasps/paymentservice/service/PaymentService.java:165-167 | two transaction ids are equal exactly when the UUIDs are |
| PaymentService.Refund | microservices/payment-service/src/main/java/com/sasps/paymentservice/service/PaymentService.java:132-137 | succeeds exactly from COMPLETED, setting REFUNDED and the reason; otherwise NotRefundable |
| PaymentService.RefundIsFinal | microservices/payment-service/src/main/java/com/sasps/paymentservice/service/PaymentService.java:132-134 | a payment is refunded at most once and a failed one never |
| PaymentService.PaymentStore.CreatePayment | microservices/payment-service/src/main/java/com/sasps/paymentservice/service/PaymentService.java:83-124 | PaymentExists exactly when the booking already has a payment; missing or unknown method refused; otherwise COMPLETED with a date or FAILED with the reason; at most one payment per booking |
| PaymentService.PaymentStore.RefundPayment | microservices/payment-service/src/main/java/com/sasps/paymentservice/service/PaymentService.java:127-143 | NotFound, or the Refund outcome written to that one row |
| PaymentService.PaymentStore.DeletePayment | microservices/payment-service/src/main/java/com/sasps/paymentservice/service/PaymentService.java:146-152 | NotFound exactly for an unknown id; otherwise removes only that payment |
| PaymentService.PaymentStore.GetPaymentById | microservices/payment-service/src/main/java/com/sasps/paymentservice/service/PaymentService.java:61-66 | the payment, or NotFound exactly when absent |
| PaymentService.PaymentStore.GetPaymentByBookingId | microservices/payment-service/src/main/java/com/sasps/paymentservice/service/PaymentService.java:68-73 | the booking's one payment, or NotFound exactly when it has none |
| PaymentService.PaymentStore.GetPaymentByTransactionId | microservices/payment-service/src/main/java/com/sasps/paymentservice/service/PaymentService.java:75-80 | a payment with that transaction id, or NotFound exactly when there is none |
| RoomCatalogue.SearchAvailableRooms | microservices/room-service/src/main/java/com/sasps/roomservice/service/RoomService.java:59-91 | exactly the listed rooms matching hotel, type name, minimum occupancy and inclusive price bounds with status AVAILABLE |
| RoomCatalogue.SearchKeepsListOrder | microservices/room-service/src/main/java/com/sasps/roomservice/service/RoomService.java:66-90 | the result keeps the order of the listing |
| RoomCatalogue.SearchIsIdempotent | microservices/room-service/src/main/java/com/sasps/roomservice/service/RoomService.java:66-90 | searching the results again with the same request gives the same list |
| RoomCatalogue.SearchIgnoresDates | microservices/room-service/src/main/java/com/sasps/roomservice/service/RoomService.java:59-91 | the requested dates do not change the result |
| RoomCatalogue.UnknownTypeFindsNothing | microservices/room-service/src/main/java/com/sasps/roomservice/service/RoomService.java:72 | an unknown type name finds no room (no exception, unlike `createRoom`) |
| RoomCatalogue.SearchHotels | microservices/room-service/src/main/java/com/sasps/roomservice/service/HotelService.java:110-151 | exactly the listed hotels, active or not, matching a non-empty term in the name or a present description, city and country ignoring case, a minimum rating, and an AVAILABLE room when asked |
| RoomCatalogue.EmptySearchListsEveryHotel | microservices/room-service/src/main/java/com/sasps/roomservice/service/HotelService.java:113-151 | with no criteria every hotel, inactive ones included, is listed in order |
| RoomCatalogue.EmptyTermIsIgnored | microservices/room-service/src/main/java/com/sasps/roomservice/service/HotelService.java:117 | an empty search term is no filter |
| RoomCatalogue.Catalogue.GetRoomById | microservices/room-service/src/main/java/com/sasps/roomservice/service/RoomService.java:27-32 | the room, or NotFound exactly when absent |
| RoomCatalogue.Catalogue.CreateRoom | microservices/room-service/src/main/java/com/sasps/roomservice/service/RoomService.java:94-120 | NotFound for an unknown hotel, Business for a taken number, IllegalArgument for an unknown type or status name, success exactly when none of these applies, with the new room; nothing stored on error |
| RoomCatalogue.Catalogue.UpdateRoom | microservices/room-service/src/main/java/com/sasps/roomservice/service/RoomService.java:123-148 | NotFound; Business exactly for a rename to a number taken in the hotel; IllegalArgument exactly for an unknown name otherwise, undoing the update; success exactly otherwise, with only the given fields changed |
| RoomCatalogue.Catalogue.UpdateRoomStatus | microservices/room-service/src/main/java/com/sasps/roomservice/service/RoomService.java:160-168 | NotFound before IllegalArgument for an unknown name; success exactly for a stored room and a constant's name, changing only that room's status |
| RoomCatalogue.Catalogue.CreateHotel | microservices/room-service/src/main/java/com/sasps/roomservice/service/HotelService.java:47-67 | every field copied, stored under a fresh id, active unless the request says otherwise |
| RoomCatalogue.Catalogue.UpdateHotel | microservices/room-service/src/main/java/com/sasps/roomservice/service/HotelService.java:70-92 | NotFound exactly for an unknown hotel, success exactly for a stored one, and only the given fields change |

## Left out

- Concurrency is not modelled. Every operation runs alone, so two bookings racing for
  one room are out of scope. The isolation level of the transactions is out of scope too.
- Logging, the Micrometer counters and timers of `createBooking` (including the revenue
  counter), OpenAPI and the controllers are left out: they decide nothing.
- HTTP and Feign plumbing is left out. A room lookup by the booking microservice is an
  `Option<RoomView>` parameter, with `None` for any failure. The payment and
  room-status calls are recorded as requests. Their failures are swallowed by the source.
- The booking microservice passes a map to the room client's `updateRoomStatus`, which
  declares a string. The model records the intended status name.
- `createdAt`/`updatedAt` auditing is left out, and so are orderings by creation time.
  The check-in and check-out lists of today are therefore sets.
- The DTO conversions (`convertToDto`) are left out, except the room counts the monolith
  adds to a hotel (`MonolithHotelService.ToView`).
- Plain repository lookups are left out where the service adds nothing: `getAllHotels`,
  `getHotelsByCity`, `getHotelsByCountry`, `getHotelByName`, `getRoomsByHotel`,
  `getRoomsByType`, `getRoomsByStatus`, `getRoomByRoomNumberAndHotel`, booking by
  confirmation number, and the user controller.
- `deleteRoom` and `deleteHotel` are left out. Their effect depends on cascade and
  foreign-key settings of entities that are not part of this model.
- `BigDecimal` scale and rounding are not modelled. Money is whole cents, and the column
  precision is stated only as bounds on the room price.
- Case folding is ASCII only. `@Email` syntax is not modelled.
- JWT, Spring Security, `PasswordEncoder` and the auth service are left out. Encoding and
  matching are parameters of `Register` and `Login`.
- The entity classes `User.java`, `Hotel.java`, `Payment.java` and the monolith
  `Booking.java` and `Room.java` are not part of this model. The allowed role and
  payment-method names are parameters. The monolith's booking and room records are taken
  to be those of the microservices, which the services use identically.
- The room service's `HotelDto` is not part of this model. Its hotel requests are taken
  to be the monolith's `HotelDto` requests, which carry the fields `HotelService` reads.
- PaymentService.PaymentStore.CreatePayment: the payment-status constants the service
  never sets are not listed. `PaymentService.PaymentStatus` has only PROCESSING,
  COMPLETED, FAILED and REFUNDED.
- MonolithBookingService.ConfirmBooking requires a payment amount. Without one, the
  source fails on a null amount after the row is written, and rolls back.
- Frontend code is not modelled.

## Findings

| source | as written | input that shows it | evidently intended | confidence | as-written member | corrected member |
|---|---|---|---|---|---|---|
| monolith/src/main/java/com/sasps/hotelbooking/service/BookingService.java:239-241 | `updateBooking` runs the overlap check only when the request carries a date, yet sets any requested status; a NO_SHOW booking is not refused by the CANCELLED/CHECKED_OUT guard | room 5 with booking 1 CONFIRMED for days 10-12 and booking 2 NO_SHOW for the same days; update booking 2 with status CONFIRMED and no dates on day 11: both now hold room 5 for overlapping days | a booking that is made to hold its room again is checked against the other bookings of the room, like a change of dates | not executed | MonolithBookingService.UpdateReopensNoShow | MonolithBookingService.GuardedUpdateKeepsNoDoubleBooking |
| microservices/booking-service/src/main/java/com/sasps/bookingservice/service/BookingService.java:193-195 | the booking microservice's `updateBooking` has the same gap: the status name is parsed and set without an overlap check when no date is given | the same two bookings in the booking table, update booking 2 with status "CONFIRMED" and no dates on day 11 | as above | not executed | BookingMicroservice.UpdateReopensNoShow | BookingMicroservice.GuardedUpdateKeepsNoDoubleBooking |

Both `UpdateBooking` methods run the corrected (guarded) update. They prove that the
store stays free of double bookings. The as-written update is
`UpdateOutcome(..., guarded := false)` in each module.

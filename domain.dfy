/**
 * The persistent entities of the salon platform and the exceptions its
 * services throw. Every table is a sequence and an entity's id is its index
 * in that sequence; timestamps are whole minutes and times of day are minutes
 * after midnight.
 */
module Domain {
  import opened Wrappers

  type UserId = nat
  type SalonId = nat
  type ServiceId = nat
  type BarberId = nat
  type BookingId = nat
  type QueueId = nat
  type ReviewId = nat
  type NotificationId = nat

  /** A point in time, in minutes. */
  type Minutes = int
  /** `LocalDateTime.minusMinutes`: the point `minutes` before `t`. */
  function MinusMinutes(t: Minutes, minutes: int): (r: Minutes)
    ensures r + minutes == t
  {
    t - minutes
  }

  /** A `LocalTime`, in minutes after midnight. */
  type TimeOfDay = int

  datatype UserRole = CustomerRole | BarberRole | SalonOwnerRole | AdminRole
  datatype BookingType = Online | WalkIn
  datatype BookingStatus = Pending | Confirmed | InProgress | Completed | Cancelled | NoShow
  datatype PaymentStatus = PaymentPending | Paid
  datatype QueueStatus = Waiting | InService | Served | Skipped
  datatype SubscriptionTier = Free | Basic | Pro | Enterprise
  datatype NotificationType =
    | BookingConfirmed | ServiceStarted | TurnNext | GetReady
    | QueueUpdate | LateArrival | BookingCancelled | ReviewRequest
  datatype Channel = Sms | Email | Push | InApp

  /** A stored password: the encoder's output for a secret, or raw text stored as is. */
  datatype StoredPassword = Encoded(secret: string) | Raw(text: string)

  /** The password encoder's `matches`: only an encoding of exactly `raw` matches. */
  predicate Matches(raw: string, stored: StoredPassword) {
    stored == Encoded(raw)
  }

  /**
   * A user. The counters and `isActive` are `None` for a user built without
   * them, since the builder does not apply the field initialisers.
   */
  datatype User = User(
    phone: string,
    email: Option<string>,
    password: StoredPassword,
    fullName: string,
    role: UserRole,
    profileImageUrl: Option<string>,
    isVerified: bool,
    isActive: Option<bool>,
    noShowCount: Option<int>,
    totalBookings: Option<int>)

  /** A salon; `rating` is a decimal on the 0..5 scale. */
  datatype Salon = Salon(
    owner: UserId,
    name: string,
    description: Option<string>,
    address: string,
    city: string,
    state: string,
    pincode: string,
    latitude: real,
    longitude: real,
    phone: string,
    openingTime: TimeOfDay,
    closingTime: TimeOfDay,
    isOpen: bool,
    acceptsOnlineBooking: bool,
    onlineBookingPercentage: int,
    rating: real,
    totalReviews: int,
    subscriptionTier: SubscriptionTier,
    subscriptionExpiresAt: Option<Minutes>)

  /** The name of a service category constant. */
  type ServiceCategory = string

  /**
   * A service a salon offers; `price` is in hundredths of the currency unit
   * and the category may be missing.
   */
  datatype Service = Service(
    salon: SalonId,
    name: string,
    description: Option<string>,
    price: int,
    durationMinutes: int,
    category: Option<ServiceCategory>,
    isActive: bool)

  /** A barber of a salon; `rating` is a decimal on the 0..5 scale. */
  datatype Barber = Barber(
    user: Option<UserId>,
    salon: SalonId,
    name: string,
    phone: Option<string>,
    specialization: Option<string>,
    experienceYears: Option<int>,
    rating: real,
    totalServices: int,
    isAvailable: bool)

  datatype Booking = Booking(
    customer: UserId,
    salon: SalonId,
    barber: Option<BarberId>,
    service: ServiceId,
    bookingType: BookingType,
    status: BookingStatus,
    estimatedStartTime: Minutes,
    actualStartTime: Option<Minutes>,
    actualEndTime: Option<Minutes>,
    estimatedDurationMinutes: int,
    queuePosition: Option<int>,
    specialRequests: Option<string>,
    paymentStatus: PaymentStatus,
    paymentId: Option<string>,
    amount: int,
    cancellationReason: Option<string>,
    cancelledAt: Option<Minutes>,
    cancelledBy: Option<UserId>)

  /** A row of the live queue of a salon. */
  datatype QueueEntry = QueueEntry(
    salon: SalonId,
    barber: Option<BarberId>,
    booking: BookingId,
    customerName: string,
    serviceName: string,
    position: int,
    estimatedWaitMinutes: int,
    status: QueueStatus,
    addedAt: Minutes)

  datatype Review = Review(
    booking: BookingId,
    customer: UserId,
    salon: SalonId,
    barber: Option<BarberId>,
    rating: int,
    comment: Option<string>)

  datatype Notification = Notification(
    user: UserId,
    booking: Option<BookingId>,
    kind: NotificationType,
    isRead: bool,
    sentVia: Channel)

  /** The entity a lookup by id failed to find. */
  datatype Missing =
    | MissingCustomer | MissingSalon | MissingService | MissingBooking
    | MissingBarber | MissingUser | MissingOwner | MissingReview

  /** The business rule a `BusinessException` reports. */
  datatype Rule =
    | CustomerBlocked | NoOnlineBooking | ServiceUnavailable
    | CannotConfirm | NotConfirmed | NotInProgress | CannotCancel
    | NotSalonOwner | NoPermission | CoordinatesRequired | InvalidCoordinates
    | NotOwnBooking | NotYetCompleted | AlreadyReviewed | RatingOutOfRange | NotOwnReview
    | PhoneRegistered | EmailRegistered | PasswordTooShort | PasswordNeedsDigit
    | InvalidLogin | AccountDeactivated | WrongPassword | UnknownUser | EmailInUse

  /** An exception a service call ends with; its transaction is rolled back. */
  datatype Failure =
    | NotFound(missing: Missing)
    | Rejected(rule: Rule)
    | NotQueued
    | NullValue
    | DuplicatePhone
    | InvalidPageSize
}

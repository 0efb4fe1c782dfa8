/**
 * The booking life cycle: an online booking is created pending and joins
 * the queue once paid for; a walk-in is confirmed and queued at once; the
 * barber starts and completes the service; a booking may be cancelled or
 * marked a no-show, and overdue online bookings are marked no-shows in bulk.
 * Every call either commits all its writes or fails with nothing written
 * (its transaction is rolled back); only what was already pushed to the
 * live-queue subscribers stays sent.
 */
module BookingService {
  import opened Wrappers
  import opened Domain
  import opened Collections
  import opened Store
  import Entities
  import UserRepository
  import QueueRepository
  import BarberRepository
  import BookingRepository
  import NotificationService
  import QueueService

  // ----- Helpers -----

  /** The estimated duration of the booking behind queue entry `i`. */
  function BookedDuration(q: seq<QueueEntry>, bs: seq<Booking>): nat -> int {
    (i: nat) => if i < |q| && q[i].booking < |bs| then bs[q[i].booking].estimatedDurationMinutes else 0
  }

  /** With no negative durations, the waiting bookings take no negative time. */
  lemma WaitingDurationsNonNegative(q: seq<QueueEntry>, bs: seq<Booking>, salon: SalonId)
    ensures QueueService.DurationsNonNegative(bs) ==>
      SumWhere(|q|, QueueRepository.WithStatus(q, salon, Waiting), BookedDuration(q, bs)) >= 0
  {
    if QueueService.DurationsNonNegative(bs) {
      SumWhereNonNegative(|q|, QueueRepository.WithStatus(q, salon, Waiting), BookedDuration(q, bs));
    }
  }

  /**
   * `calculateNextAvailableSlot`: `now` plus the durations of every booking
   * still waiting in the salon's queue, whatever their order (entries being
   * served are not counted).
   */
  function NextAvailableSlot(q: seq<QueueEntry>, bs: seq<Booking>, salon: SalonId, now: Minutes): (r: Minutes)
    ensures r == now + SumWhere(|q|, QueueRepository.WithStatus(q, salon, Waiting), BookedDuration(q, bs))
    ensures QueueService.DurationsNonNegative(bs) ==> r >= now
  {
    var waiting := QueueRepository.WithStatus(q, salon, Waiting);
    SumOfSelect(|q|, waiting, QueueRepository.PositionKey(q), BookedDuration(q, bs));
    WaitingDurationsNonNegative(q, bs, salon);
    if QueueRepository.BySalon(q, salon) == [] then
      assert forall i: nat :: i < |q| ==> !waiting(i) by {
        forall i: nat | i < |q|
          ensures !waiting(i)
        {
          assert i !in QueueRepository.BySalon(q, salon);
        }
      }
      SumWhereNone(|q|, waiting, BookedDuration(q, bs));
      now
    else
      now + Sum(QueueService.WaitingList(q, salon), BookedDuration(q, bs))
  }

  /** The least loaded of the salon's available barbers heads the load-ordered list. */
  lemma LeastLoadedFirst(barbers: seq<Barber>, salon: SalonId)
    requires BarberRepository.AvailableByLoad(barbers, salon) != []
    ensures var r := BarberRepository.AvailableByLoad(barbers, salon);
      forall i :: 0 <= i < |barbers| && BarberRepository.IsAvailableAt(barbers[i], salon) ==>
        barbers[r[0]].totalServices <= barbers[i].totalServices
  {
    var r := BarberRepository.AvailableByLoad(barbers, salon);
    forall i | 0 <= i < |barbers| && BarberRepository.IsAvailableAt(barbers[i], salon)
      ensures barbers[r[0]].totalServices <= barbers[i].totalServices
    {
      var k :| 0 <= k < |r| && r[k] == i;
    }
  }

  /**
   * `assignBarber`: an available barber of the salon who has done no more
   * services than any other available one; none when nobody is available.
   */
  function AssignBarber(barbers: seq<Barber>, salon: SalonId): (r: Option<BarberId>)
    ensures r.None? <==> forall i :: 0 <= i < |barbers| ==> !BarberRepository.IsAvailableAt(barbers[i], salon)
    ensures r.Some? ==> r.value < |barbers| && BarberRepository.IsAvailableAt(barbers[r.value], salon)
    ensures r.Some? ==> forall i :: 0 <= i < |barbers| && BarberRepository.IsAvailableAt(barbers[i], salon) ==>
      barbers[r.value].totalServices <= barbers[i].totalServices
  {
    var available := BarberRepository.AvailableByLoad(barbers, salon);
    if available == [] then None
    else
      LeastLoadedFirst(barbers, salon);
      Some(available[0])
  }

  // ----- Creating an online booking -----

  /** The checks of `createOnlineBooking`, in the order it makes them. */
  function OnlineBookingCheck(users: seq<User>, salons: seq<Salon>, services: seq<Service>,
                              customer: UserId, salon: SalonId, service: ServiceId): (r: Outcome<Failure>)
    ensures r == Pass <==>
      customer < |users| && Entities.IsBlacklisted(users[customer]) == Ok(false) &&
      salon < |salons| && salons[salon].acceptsOnlineBooking &&
      service < |services| && services[service].isActive
    ensures customer >= |users| ==> r == Fail(NotFound(MissingCustomer))
    ensures customer < |users| && Entities.IsBlacklisted(users[customer]).Err? ==> r == Fail(NullValue)
    ensures customer < |users| && Entities.IsBlacklisted(users[customer]) == Ok(true) ==>
      r == Fail(Rejected(CustomerBlocked))
    ensures customer < |users| && Entities.IsBlacklisted(users[customer]) == Ok(false) ==>
      (salon >= |salons| ==> r == Fail(NotFound(MissingSalon))) &&
      (salon < |salons| && !salons[salon].acceptsOnlineBooking ==> r == Fail(Rejected(NoOnlineBooking))) &&
      (salon < |salons| && salons[salon].acceptsOnlineBooking ==>
        (service >= |services| ==> r == Fail(NotFound(MissingService))) &&
        (service < |services| && !services[service].isActive ==> r == Fail(Rejected(ServiceUnavailable))))
  {
    if customer >= |users| then Fail(NotFound(MissingCustomer))
    else match Entities.IsBlacklisted(users[customer])
      case Err(e) => Fail(e)
      case Ok(true) => Fail(Rejected(CustomerBlocked))
      case Ok(false) =>
        if salon >= |salons| then Fail(NotFound(MissingSalon))
        else if !salons[salon].acceptsOnlineBooking then Fail(Rejected(NoOnlineBooking))
        else if service >= |services| then Fail(NotFound(MissingService))
        else if !services[service].isActive then Fail(Rejected(ServiceUnavailable))
        else Pass
  }

  /**
   * A customer with three or more no-shows is refused before anything about
   * the salon or the service is looked at.
   */
  lemma NoShowsBlockOnlineBooking(users: seq<User>, salons: seq<Salon>, services: seq<Service>,
                                  customer: UserId, salon: SalonId, service: ServiceId)
    requires customer < |users| && users[customer].noShowCount.Some?
    requires users[customer].noShowCount.value >= Entities.BlacklistThreshold
    ensures OnlineBookingCheck(users, salons, services, customer, salon, service) == Fail(Rejected(CustomerBlocked))
  {
  }

  /**
   * The booking `createOnlineBooking` saves: pending and unpaid, priced and
   * timed by the service, with the least loaded available barber and the
   * next free slot of the salon's queue, and no place in it yet.
   */
  function OnlineBooking(services: seq<Service>, barbers: seq<Barber>, bs: seq<Booking>, q: seq<QueueEntry>,
                         customer: UserId, salon: SalonId, service: ServiceId,
                         specialRequests: Option<string>, now: Minutes): (r: Booking)
    requires service < |services|
    ensures r.customer == customer && r.salon == salon && r.service == service
    ensures r.bookingType == Online && r.status == Pending && r.paymentStatus == PaymentPending
    ensures r.queuePosition == None && r.actualStartTime == None
    ensures r.estimatedDurationMinutes == services[service].durationMinutes && r.amount == services[service].price
    ensures QueueService.DurationsNonNegative(bs) ==> r.estimatedStartTime >= now
    ensures r.barber.None? <==> forall i :: 0 <= i < |barbers| ==> !BarberRepository.IsAvailableAt(barbers[i], salon)
    ensures r.barber.Some? ==> r.barber.value < |barbers| && BarberRepository.IsAvailableAt(barbers[r.barber.value], salon)
    ensures r.barber.Some? ==>
      forall i :: 0 <= i < |barbers| && BarberRepository.IsAvailableAt(barbers[i], salon) ==>
        barbers[r.barber.value].totalServices <= barbers[i].totalServices
  {
    Booking(customer, salon, AssignBarber(barbers, salon), service, Online, Pending,
            NextAvailableSlot(q, bs, salon, now), None, None, services[service].durationMinutes, None,
            specialRequests, PaymentPending, None, services[service].price, None, None, None)
  }

  /**
   * `createOnlineBooking`: when every check passes, a new pending booking
   * is added and its id returned; it is not in the queue until confirmed.
   * Otherwise the first failing check is reported and nothing is written.
   */
  method CreateOnlineBooking(st: Store, customer: UserId, salon: SalonId, service: ServiceId,
                             specialRequests: Option<string>, now: Minutes)
    returns (r: Result<BookingId, Failure>)
    requires st.Valid()
    modifies st`bookings
    ensures st.Valid()
    ensures var check := OnlineBookingCheck(st.users, st.salons, st.services, customer, salon, service);
      match check
      case Fail(e) => r == Err(e) && st.bookings == old(st.bookings)
      case Pass =>
        r == Ok(|old(st.bookings)|) &&
        st.bookings == old(st.bookings) +
          [OnlineBooking(st.services, st.barbers, old(st.bookings), st.queue, customer, salon, service, specialRequests, now)]
    ensures r.Ok? ==> QueueRepository.FindByBookingId(st.queue, r.value).None?
  {
    var check := OnlineBookingCheck(st.users, st.salons, st.services, customer, salon, service);
    if check.Fail? {
      return Err(check.error);
    }
    var b := OnlineBooking(st.services, st.barbers, st.bookings, st.queue, customer, salon, service, specialRequests, now);
    AddBookingKeepsConsistent(st.users, st.salons, st.services, st.barbers, st.bookings, st.queue, b);
    r := Ok(|st.bookings|);
    st.bookings := st.bookings + [b];
  }

  // ----- Joining the queue -----

  /**
   * The queue and bookings after `addToQueue`: a waiting entry at the
   * salon's tail with the wait estimated there, its place mirrored on the
   * booking.
   */
  function Enqueued(users: seq<User>, services: seq<Service>, t: QueueService.Tables, booking: BookingId, now: Minutes)
    : QueueService.Tables
    requires QueueService.Linked(t.queue, t.bookings) && booking < |t.bookings|
    requires t.bookings[booking].customer < |users| && t.bookings[booking].service < |services|
  {
    var salon := t.bookings[booking].salon;
    var position := QueueService.TailPosition(t.queue, salon);
    var wait := QueueService.WaitAhead(t.queue, t.bookings, salon, position, now);
    QueueService.Tables(t.queue + [QueueService.NewEntry(users, services, t.bookings, booking, position, wait, now)],
                        t.bookings[booking := t.bookings[booking].(queuePosition := Some(position))])
  }

  /** A booking that had no entry has, once enqueued, the new last entry, placed behind every other entry of its salon. */
  lemma EnqueuedIsLast(users: seq<User>, services: seq<Service>, t: QueueService.Tables, booking: BookingId, now: Minutes)
    requires QueueService.Linked(t.queue, t.bookings) && booking < |t.bookings|
    requires t.bookings[booking].customer < |users| && t.bookings[booking].service < |services|
    requires QueueRepository.FindByBookingId(t.queue, booking).None?
    ensures var r := Enqueued(users, services, t, booking, now);
      QueueService.CustomerQueueStatus(r.queue, booking) == Ok(|t.queue|) &&
      r.queue[|t.queue|].status == Waiting &&
      r.bookings[booking].queuePosition == Some(r.queue[|t.queue|].position) &&
      forall i :: 0 <= i < |t.queue| && t.queue[i].salon == t.bookings[booking].salon ==>
        t.queue[i].position < r.queue[|t.queue|].position
  {
    var r := Enqueued(users, services, t, booking, now);
    QueueService.QueuedBookingHasStatus(t.queue, r.queue[|t.queue|]);
    assert r.queue == t.queue + [r.queue[|t.queue|]];
  }

  // ----- Confirming a paid booking -----

  /** The checks of `confirmBooking`: the booking exists, is pending, and its customer's booking counter is set. */
  function ConfirmCheck(users: seq<User>, bs: seq<Booking>, booking: BookingId): (r: Outcome<Failure>)
    requires booking < |bs| ==> bs[booking].customer < |users|
    ensures booking >= |bs| ==> r == Fail(NotFound(MissingBooking))
    ensures booking < |bs| && bs[booking].status != Pending ==> r == Fail(Rejected(CannotConfirm))
    ensures booking < |bs| && bs[booking].status == Pending ==>
      (r == Pass <==> Entities.IncrementTotalBookings(users[bs[booking].customer]).Ok?)
    ensures booking < |bs| && bs[booking].status == Pending && r.Fail? ==> r == Fail(NullValue)
    ensures r.Fail? ==> r.error in {NotFound(MissingBooking), Rejected(CannotConfirm), NullValue}
  {
    if booking >= |bs| then Fail(NotFound(MissingBooking))
    else if bs[booking].status != Pending then Fail(Rejected(CannotConfirm))
    else if users[bs[booking].customer].totalBookings.None? then Fail(NullValue)
    else Pass
  }

  /** The booking once paid for: confirmed, with the payment recorded. */
  function PaidFor(b: Booking, paymentId: string): (r: Booking)
    ensures r.status == Confirmed && r.paymentStatus == Paid && r.paymentId == Some(paymentId)
    ensures r.(status := b.status, paymentStatus := b.paymentStatus, paymentId := b.paymentId) == b
  {
    b.(status := Confirmed, paymentStatus := Paid, paymentId := Some(paymentId))
  }

  /**
   * `confirmBooking`: a pending booking whose customer's counter is set is
   * confirmed as paid and joins its salon's queue as the last entry;
   * otherwise the first failing check is reported and nothing changes.
   */
  method ConfirmBooking(st: Store, booking: BookingId, paymentId: string, now: Minutes) returns (out: Outcome<Failure>)
    requires st.Valid()
    modifies st`users, st`bookings, st`queue, st`broadcasts, st`notifications
    ensures st.Valid()
    ensures out == ConfirmCheck(old(st.users), old(st.bookings), booking)
    ensures out.Fail? ==>
      st.users == old(st.users) && st.bookings == old(st.bookings) && st.queue == old(st.queue) &&
      st.notifications == old(st.notifications)
    ensures out.Fail? && out != Fail(NullValue) ==> st.broadcasts == old(st.broadcasts)
    ensures out == Fail(NullValue) ==> var b := old(st.bookings)[booking];
      b.customer < |old(st.users)| && b.service < |st.services| &&
      var t := Enqueued(old(st.users), st.services, QueueService.Tables(old(st.queue), old(st.bookings)[booking := PaidFor(b, paymentId)]), booking, now);
      st.broadcasts == old(st.broadcasts) + [Broadcast(b.salon, QueueService.LiveView(t.queue, b.salon))]
    ensures out.Pass? ==> var b := old(st.bookings)[booking];
      b.customer < |old(st.users)| && b.service < |st.services| &&
      QueueService.Tables(st.queue, st.bookings) ==
        Enqueued(old(st.users), st.services, QueueService.Tables(old(st.queue), old(st.bookings)[booking := PaidFor(b, paymentId)]), booking, now)
    ensures out.Pass? ==> var c := old(st.bookings)[booking].customer;
      st.users == old(st.users)[c := Entities.IncrementTotalBookings(old(st.users)[c]).value]
    ensures out.Pass? ==> var salon := old(st.bookings)[booking].salon;
      st.broadcasts == old(st.broadcasts) + [Broadcast(salon, QueueService.LiveView(st.queue, salon))]
    ensures out.Pass? ==> st.notifications == old(st.notifications) + [Some(NotificationService.About(st.bookings, booking, BookingConfirmed))]
  {
    if booking >= |st.bookings| {
      return Fail(NotFound(MissingBooking));
    }
    var b := st.bookings[booking];
    assert BookingRefs(b, |st.users|, |st.salons|, |st.services|, |st.barbers|);
    if b.status != Pending {
      return Fail(Rejected(CannotConfirm));
    }
    if st.users[b.customer].totalBookings.None? {
      EnqueueRolledBack(st, booking, paymentId, now);
      return Fail(NullValue);
    }
    Confirm(st, booking, paymentId, now);
    out := Pass;
  }

  /** The writes of a `confirmBooking` whose checks passed. */
  method Confirm(st: Store, booking: BookingId, paymentId: string, now: Minutes)
    requires st.Valid() && booking < |st.bookings|
    requires st.bookings[booking].status == Pending
    requires st.users[st.bookings[booking].customer].totalBookings.Some?
    modifies st`users, st`bookings, st`queue, st`broadcasts, st`notifications
    ensures st.Valid()
    ensures QueueService.Linked(old(st.queue), old(st.bookings))
    ensures var b := old(st.bookings)[booking];
      b.customer < |old(st.users)| && b.service < |st.services| &&
      QueueService.Tables(st.queue, st.bookings) ==
        Enqueued(old(st.users), st.services, QueueService.Tables(old(st.queue), old(st.bookings)[booking := PaidFor(b, paymentId)]), booking, now)
    ensures var c := old(st.bookings)[booking].customer;
      st.users == old(st.users)[c := Entities.IncrementTotalBookings(old(st.users)[c]).value]
    ensures var salon := old(st.bookings)[booking].salon;
      st.broadcasts == old(st.broadcasts) + [Broadcast(salon, QueueService.LiveView(st.queue, salon))]
    ensures st.notifications == old(st.notifications) + [Some(NotificationService.About(st.bookings, booking, BookingConfirmed))]
  {
    var b := st.bookings[booking];
    var c := b.customer;
    assert BookingRefs(b, |st.users|, |st.salons|, |st.services|, |st.barbers|);
    ghost var t := Enqueued(st.users, st.services, QueueService.Tables(st.queue, st.bookings[booking := PaidFor(b, paymentId)]), booking, now);
    PayAndEnqueue(st, booking, paymentId, now);
    assert QueueService.Tables(st.queue, st.bookings) == t;
    CountAndNotify(st, booking);
  }

  /** The customer's booking counter goes up by one and the customer is told of the confirmation. */
  method CountAndNotify(st: Store, booking: BookingId)
    requires st.Valid() && booking < |st.bookings|
    requires st.users[st.bookings[booking].customer].totalBookings.Some?
    modifies st`users, st`notifications
    ensures st.Valid()
    ensures var c := st.bookings[booking].customer;
      st.users == old(st.users)[c := Entities.IncrementTotalBookings(old(st.users)[c]).value]
    ensures st.notifications == old(st.notifications) + [Some(NotificationService.About(st.bookings, booking, BookingConfirmed))]
  {
    var c := st.bookings[booking].customer;
    var u := Entities.IncrementTotalBookings(st.users[c]).value;
    UpdateUserKeepsConsistent(st.users, st.salons, st.services, st.barbers, st.bookings, st.queue, c, u);
    st.users := st.users[c := u];
    NotificationService.Send(st, booking, BookingConfirmed);
  }

  /**
   * The queue update is broadcast before the customer's counter turns out to
   * be unset; the rollback then restores the tables but cannot recall the
   * message.
   */
  method EnqueueRolledBack(st: Store, booking: BookingId, paymentId: string, now: Minutes)
    requires st.Valid() && booking < |st.bookings|
    requires st.bookings[booking].status == Pending
    modifies st`bookings, st`queue, st`broadcasts
    ensures st.Valid()
    ensures st.bookings == old(st.bookings) && st.queue == old(st.queue)
    ensures var b := old(st.bookings)[booking];
      QueueService.Linked(old(st.queue), old(st.bookings)) &&
      b.customer < |st.users| && b.service < |st.services| &&
      var t := Enqueued(st.users, st.services, QueueService.Tables(old(st.queue), old(st.bookings)[booking := PaidFor(b, paymentId)]), booking, now);
      st.broadcasts == old(st.broadcasts) + [Broadcast(b.salon, QueueService.LiveView(t.queue, b.salon))]
  {
    var bookings0, queue0 := st.bookings, st.queue;
    PayAndEnqueue(st, booking, paymentId, now);
    st.bookings, st.queue := bookings0, queue0;
  }

  /** The booking is paid for and enqueued; the queue is broadcast. */
  method PayAndEnqueue(st: Store, booking: BookingId, paymentId: string, now: Minutes)
    requires st.Valid() && booking < |st.bookings|
    requires st.bookings[booking].status == Pending
    modifies st`bookings, st`queue, st`broadcasts
    ensures st.Valid()
    ensures QueueService.Linked(old(st.queue), old(st.bookings))
    ensures var b := old(st.bookings)[booking];
      b.customer < |st.users| && b.service < |st.services| &&
      QueueService.Tables(st.queue, st.bookings) ==
        Enqueued(st.users, st.services, QueueService.Tables(old(st.queue), old(st.bookings)[booking := PaidFor(b, paymentId)]), booking, now) &&
      st.broadcasts == old(st.broadcasts) + [Broadcast(b.salon, QueueService.LiveView(st.queue, b.salon))]
    ensures st.bookings[booking].customer == old(st.bookings)[booking].customer
  {
    var b := st.bookings[booking];
    assert BookingRefs(b, |st.users|, |st.salons|, |st.services|, |st.barbers|);
    UpdateBookingKeepsConsistent(st.users, st.salons, st.services, st.barbers, st.bookings, st.queue, booking, PaidFor(b, paymentId));
    st.bookings := st.bookings[booking := PaidFor(b, paymentId)];
    var _ := QueueService.AddToQueue(st, booking, now);
  }

  // ----- Walk-ins -----

  /**
   * The account `createGuestUser` saves: a customer known by phone and name
   * only, unverified, with the text "N/A" stored as its password.
   */
  function GuestUser(phone: string, name: string): (r: User)
    ensures r.phone == phone && r.fullName == name && r.role == CustomerRole && r.email.None?
    ensures forall raw :: !Matches(raw, r.password)
    ensures Entities.IsAccountNonLocked(r) == Err(NullValue) && Entities.IsBlacklisted(r) == Err(NullValue)
    ensures Entities.IncrementTotalBookings(r) == Err(NullValue) && Entities.IncrementNoShowCount(r) == Err(NullValue)
  {
    User(phone, None, Raw("N/A"), name, CustomerRole, None, false, None, None, None)
  }

  /** The phone the guest is saved under: the customer's own, or "GUEST_" followed by a fresh token. */
  function GuestPhone(customerPhone: Option<string>, token: string): (r: string)
    ensures customerPhone.Some? ==> r == customerPhone.value
    ensures customerPhone.None? ==> |r| == |token| + 6 && r[..6] == "GUEST_" && r[6..] == token
  {
    match customerPhone
    case Some(phone) => phone
    case None => "GUEST_" + token
  }

  /**
   * The checks of `createWalkInBooking`, in order. The guest account is
   * saved even when `findByPhone` finds the customer, so a registered phone
   * is refused by the unique phone column.
   */
  function WalkInCheck(users: seq<User>, salons: seq<Salon>, services: seq<Service>, barbers: seq<Barber>,
                       salon: SalonId, barber: BarberId, service: ServiceId, phone: string): (r: Outcome<Failure>)
    ensures r == Pass <==>
      salon < |salons| && barber < |barbers| && service < |services| &&
      forall i :: 0 <= i < |users| ==> users[i].phone != phone
    ensures (salon < |salons| && barber < |barbers| && service < |services| &&
             exists i :: 0 <= i < |users| && users[i].phone == phone) ==>
      r == Fail(DuplicatePhone)
  {
    if salon >= |salons| then Fail(NotFound(MissingSalon))
    else if barber >= |barbers| then Fail(NotFound(MissingBarber))
    else if service >= |services| then Fail(NotFound(MissingService))
    else if UserRepository.FindByPhone(users, phone).Some? then Fail(DuplicatePhone)
    else Pass
  }

  /**
   * The booking `createWalkInBooking` saves: confirmed at once with the
   * chosen barber, priced and timed by the service, starting at the next
   * free slot, to be paid after the service.
   */
  function WalkInBooking(services: seq<Service>, bs: seq<Booking>, q: seq<QueueEntry>, customer: UserId,
                         salon: SalonId, barber: BarberId, service: ServiceId, now: Minutes): (r: Booking)
    requires service < |services|
    ensures r.customer == customer && r.salon == salon && r.service == service && r.barber == Some(barber)
    ensures r.bookingType == WalkIn && r.status == Confirmed && r.paymentStatus == PaymentPending
    ensures r.queuePosition == None && r.actualStartTime == None
    ensures r.estimatedDurationMinutes == services[service].durationMinutes && r.amount == services[service].price
    ensures QueueService.DurationsNonNegative(bs) ==> r.estimatedStartTime >= now
  {
    Booking(customer, salon, Some(barber), service, WalkIn, Confirmed,
            NextAvailableSlot(q, bs, salon, now), None, None, services[service].durationMinutes, None,
            None, PaymentPending, None, services[service].price, None, None, None)
  }

  /**
   * `createWalkInBooking`: when the salon, barber and service exist and the
   * phone is free, a guest customer is saved, the confirmed booking is added
   * and it joins the salon's queue as the last entry; its id is returned.
   * Otherwise the first failing check is reported and nothing is written.
   */
  method CreateWalkInBooking(st: Store, salon: SalonId, barber: BarberId, service: ServiceId,
                             customerPhone: Option<string>, customerName: string, token: string, now: Minutes)
    returns (r: Result<BookingId, Failure>)
    requires st.Valid()
    modifies st`users, st`bookings, st`queue, st`broadcasts
    ensures st.Valid()
    ensures var check := WalkInCheck(old(st.users), st.salons, st.services, st.barbers, salon, barber, service,
                                     GuestPhone(customerPhone, token));
      match check
      case Fail(e) =>
        r == Err(e) && st.users == old(st.users) && st.bookings == old(st.bookings) &&
        st.queue == old(st.queue) && st.broadcasts == old(st.broadcasts)
      case Pass => r == Ok(|old(st.bookings)|)
    ensures r.Ok? ==> st.users == old(st.users) + [GuestUser(GuestPhone(customerPhone, token), customerName)]
    ensures r.Ok? ==>
      service < |st.services| &&
      QueueService.Tables(st.queue, st.bookings) ==
        Enqueued(st.users, st.services,
                 QueueService.Tables(old(st.queue),
                   old(st.bookings) + [WalkInBooking(st.services, old(st.bookings), old(st.queue), |old(st.users)|,
                                                      salon, barber, service, now)]),
                 r.value, now)
    ensures r.Ok? ==> st.broadcasts == old(st.broadcasts) + [Broadcast(salon, QueueService.LiveView(st.queue, salon))]
  {
    var phone := GuestPhone(customerPhone, token);
    var check := WalkInCheck(st.users, st.salons, st.services, st.barbers, salon, barber, service, phone);
    if check.Fail? {
      return Err(check.error);
    }
    var guest := GuestUser(phone, customerName);
    AddUserKeepsConsistent(st.users, st.salons, st.services, st.barbers, st.bookings, st.queue, guest);
    st.users := st.users + [guest];
    var id := AdmitWalkIn(st, |st.users| - 1, salon, barber, service, now);
    r := Ok(id);
  }

  /** The walk-in booking of `customer` is added and enqueued; the queue is broadcast. */
  method AdmitWalkIn(st: Store, customer: UserId, salon: SalonId, barber: BarberId, service: ServiceId, now: Minutes)
    returns (id: BookingId)
    requires st.Valid()
    requires customer < |st.users| && salon < |st.salons| && barber < |st.barbers| && service < |st.services|
    modifies st`bookings, st`queue, st`broadcasts
    ensures st.Valid()
    ensures id == |old(st.bookings)|
    ensures QueueService.Tables(st.queue, st.bookings) ==
      Enqueued(st.users, st.services,
               QueueService.Tables(old(st.queue),
                 old(st.bookings) + [WalkInBooking(st.services, old(st.bookings), old(st.queue), customer,
                                                    salon, barber, service, now)]),
               id, now)
    ensures st.broadcasts == old(st.broadcasts) + [Broadcast(salon, QueueService.LiveView(st.queue, salon))]
  {
    var b := WalkInBooking(st.services, st.bookings, st.queue, customer, salon, barber, service, now);
    AddBookingKeepsConsistent(st.users, st.salons, st.services, st.barbers, st.bookings, st.queue, b);
    id := |st.bookings|;
    st.bookings := st.bookings + [b];
    var _ := QueueService.AddToQueue(st, id, now);
  }

  // ----- Leaving the queue -----

  /**
   * The queue and bookings after `removeFromQueue`: the booking's entry, if
   * it has one, is marked served and its salon's waiting entries renumbered.
   */
  function Removed(t: QueueService.Tables, booking: BookingId, now: Minutes): (r: QueueService.Tables)
    requires QueueService.Linked(t.queue, t.bookings)
    ensures |r.bookings| == |t.bookings| && QueueService.Linked(r.queue, r.bookings)
  {
    match QueueRepository.FindByBookingId(t.queue, booking)
    case None => t
    case Some(e) =>
      QueueService.Reorder(QueueService.Tables(t.queue[e := t.queue[e].(status := Served)], t.bookings), t.queue[e].salon, now)
  }

  /** What `removeFromQueue` broadcasts: the salon's queue once reordered, or nothing when the booking had no entry. */
  function RemovalBroadcasts(q: seq<QueueEntry>, booking: BookingId, q': seq<QueueEntry>): seq<Broadcast> {
    match QueueRepository.FindByBookingId(q, booking)
    case None => []
    case Some(e) => [Broadcast(q[e].salon, QueueService.LiveView(q', q[e].salon))]
  }

  /** `after` is `before` with at most its place in the queue and its estimated start changed. */
  predicate Rescheduled(before: Booking, after: Booking) {
    after == before.(queuePosition := after.queuePosition, estimatedStartTime := after.estimatedStartTime)
  }

  /**
   * After a removal the booking no longer waits in any queue, and every
   * booking keeps all it records but its place and estimated start.
   */
  lemma RemovedLeavesQueue(t: QueueService.Tables, booking: BookingId, now: Minutes)
    requires QueueService.Linked(t.queue, t.bookings) && OneEntryPerBooking(t.queue)
    ensures var r := Removed(t, booking, now);
      |r.queue| == |t.queue| && |r.bookings| == |t.bookings| &&
      forall i :: 0 <= i < |r.queue| && r.queue[i].booking == booking ==> r.queue[i].status != Waiting
    ensures var r := Removed(t, booking, now);
      forall b :: 0 <= b < |t.bookings| ==> Rescheduled(t.bookings[b], r.bookings[b])
  {
    match QueueRepository.FindByBookingId(t.queue, booking)
    case None =>
    case Some(e) =>
      var salon := t.queue[e].salon;
      var served := QueueService.Tables(t.queue[e := t.queue[e].(status := Served)], t.bookings);
      var ids := QueueService.WaitingList(served.queue, salon);
      QueueService.ReorderTouchesOnlyWaiting(served, salon, now);
      QueueService.RenumberShape(served, salon, ids, |ids|, now);
      QueueService.RenumberBookingFields(served, salon, ids, |ids|, now);
      var r := QueueService.Reorder(served, salon, now);
      forall i | 0 <= i < |r.queue| && r.queue[i].booking == booking
        ensures r.queue[i].status != Waiting
      {
        assert r.queue[i].booking == served.queue[i].booking;
        if i != e {
          assert false;
        }
      }
  }

  /** A removal keeps the database consistent. */
  lemma RemovedKeepsConsistent(users: seq<User>, salons: seq<Salon>, services: seq<Service>, barbers: seq<Barber>,
                               t: QueueService.Tables, booking: BookingId, now: Minutes)
    requires Consistent(users, salons, services, barbers, t.bookings, t.queue)
    ensures QueueService.Linked(t.queue, t.bookings)
    ensures var r := Removed(t, booking, now);
      Consistent(users, salons, services, barbers, r.bookings, r.queue)
  {
    match QueueRepository.FindByBookingId(t.queue, booking)
    case None =>
    case Some(e) =>
      QueueService.LeaveWaitingKeepsConsistent(users, salons, services, barbers, t.bookings, t.queue, e, Served);
      QueueService.ReorderKeepsConsistent(users, salons, services, barbers,
        QueueService.Tables(t.queue[e := t.queue[e].(status := Served)], t.bookings), t.queue[e].salon, now);
  }

  /**
   * `removeFromQueue`, with what it leaves unchanged: every booking keeps
   * all it records but its place and estimated start.
   */
  method Leave(st: Store, booking: BookingId, now: Minutes)
    requires st.Valid()
    modifies st`queue, st`bookings, st`broadcasts, st`notifications
    ensures st.Valid()
    ensures QueueService.Linked(old(st.queue), old(st.bookings))
    ensures QueueService.Tables(st.queue, st.bookings) == Removed(QueueService.Tables(old(st.queue), old(st.bookings)), booking, now)
    ensures st.broadcasts == old(st.broadcasts) + RemovalBroadcasts(old(st.queue), booking, st.queue)
    ensures st.notifications == old(st.notifications)
    ensures |st.bookings| == |old(st.bookings)| &&
      forall b :: 0 <= b < |old(st.bookings)| ==> Rescheduled(old(st.bookings)[b], st.bookings[b])
  {
    RemovedLeavesQueue(QueueService.Tables(st.queue, st.bookings), booking, now);
    QueueService.RemoveFromQueue(st, booking, now);
  }

  // ----- Starting and completing the service -----

  /**
   * The checks of `startService`: the booking exists and is confirmed, and
   * it has a queue entry (`markInService` throws otherwise, undoing the start).
   */
  function StartCheck(bs: seq<Booking>, q: seq<QueueEntry>, booking: BookingId): (r: Outcome<Failure>)
    ensures r == Pass <==>
      booking < |bs| && bs[booking].status == Confirmed && exists k :: 0 <= k < |q| && q[k].booking == booking
    ensures booking >= |bs| ==> r == Fail(NotFound(MissingBooking))
    ensures r == Fail(NotQueued) ==> booking < |bs| && bs[booking].status == Confirmed
  {
    if booking >= |bs| then Fail(NotFound(MissingBooking))
    else if bs[booking].status != Confirmed then Fail(Rejected(NotConfirmed))
    else if QueueRepository.FindByBookingId(q, booking).None? then Fail(NotQueued)
    else Pass
  }

  /**
   * `startService`: a confirmed, queued booking starts now and its entry
   * goes in service; the queue is broadcast and the customer told. Any
   * failing check leaves everything as it was.
   */
  method StartService(st: Store, booking: BookingId, now: Minutes) returns (out: Outcome<Failure>)
    requires st.Valid()
    modifies st`bookings, st`queue, st`broadcasts, st`notifications
    ensures st.Valid()
    ensures out == StartCheck(old(st.bookings), old(st.queue), booking)
    ensures out.Fail? ==>
      st.bookings == old(st.bookings) && st.queue == old(st.queue) &&
      st.broadcasts == old(st.broadcasts) && st.notifications == old(st.notifications)
    ensures out.Pass? ==>
      var e := QueueRepository.FindByBookingId(old(st.queue), booking).value;
      var salon := old(st.queue)[e].salon;
      st.bookings == old(st.bookings)[booking := Entities.MarkStarted(old(st.bookings)[booking], now)] &&
      st.queue == old(st.queue)[e := old(st.queue)[e].(status := InService)] &&
      st.broadcasts == old(st.broadcasts) + [Broadcast(salon, QueueService.LiveView(st.queue, salon))] &&
      st.notifications == old(st.notifications) + [Some(NotificationService.About(st.bookings, booking, ServiceStarted))]
  {
    if booking >= |st.bookings| {
      return Fail(NotFound(MissingBooking));
    }
    var b := st.bookings[booking];
    if b.status != Confirmed {
      return Fail(Rejected(NotConfirmed));
    }
    if QueueRepository.FindByBookingId(st.queue, booking).None? {
      return Fail(NotQueued);
    }
    assert BookingRefs(b, |st.users|, |st.salons|, |st.services|, |st.barbers|);
    UpdateBookingKeepsConsistent(st.users, st.salons, st.services, st.barbers, st.bookings, st.queue,
                                 booking, Entities.MarkStarted(b, now));
    st.bookings := st.bookings[booking := Entities.MarkStarted(b, now)];
    out := QueueService.MarkInService(st, booking);
    NotificationService.Send(st, booking, ServiceStarted);
  }

  /** The check of `completeService`: the booking exists and is in progress. */
  function CompleteCheck(bs: seq<Booking>, booking: BookingId): (r: Outcome<Failure>)
    ensures r == Pass <==> booking < |bs| && bs[booking].status == InProgress
    ensures booking >= |bs| ==> r == Fail(NotFound(MissingBooking))
    ensures booking < |bs| && r.Fail? ==> r == Fail(Rejected(NotInProgress))
  {
    if booking >= |bs| then Fail(NotFound(MissingBooking))
    else if bs[booking].status != InProgress then Fail(Rejected(NotInProgress))
    else Pass
  }

  /** A booking that `startService` has started passes the check of `completeService`, whatever its status was. */
  lemma StartedCanComplete(bs: seq<Booking>, booking: BookingId, now: Minutes)
    requires booking < |bs|
    ensures CompleteCheck(bs[booking := Entities.MarkStarted(bs[booking], now)], booking) == Pass
  {
  }

  /** The barbers after a service by the booking's barber, if it has one: that barber has done one more. */
  function CountService(barbers: seq<Barber>, barber: Option<BarberId>): (r: seq<Barber>)
    ensures |r| == |barbers|
    ensures forall i :: 0 <= i < |r| ==> r[i].(totalServices := barbers[i].totalServices) == barbers[i]
    ensures forall i :: 0 <= i < |r| ==>
      r[i].totalServices == if barber == Some(i) then barbers[i].totalServices + 1 else barbers[i].totalServices
  {
    match barber
    case Some(k) =>
      if k < |barbers| then barbers[k := barbers[k].(totalServices := barbers[k].totalServices + 1)] else barbers
    case None => barbers
  }

  /**
   * `completeService`: a booking in progress is completed now and leaves
   * the queue; its barber has done one more service; the next customers
   * are told and the customer asked for a review. Any failing check leaves
   * everything as it was.
   */
  method CompleteService(st: Store, booking: BookingId, now: Minutes) returns (out: Outcome<Failure>)
    requires st.Valid()
    modifies st`bookings, st`queue, st`barbers, st`broadcasts, st`notifications
    ensures st.Valid()
    ensures out == CompleteCheck(old(st.bookings), booking)
    ensures out.Fail? ==>
      st.bookings == old(st.bookings) && st.queue == old(st.queue) && st.barbers == old(st.barbers) &&
      st.broadcasts == old(st.broadcasts) && st.notifications == old(st.notifications)
    ensures out.Pass? ==>
      QueueService.Linked(old(st.queue), old(st.bookings)) &&
      QueueService.Tables(st.queue, st.bookings) ==
        Removed(QueueService.Tables(old(st.queue),
                  old(st.bookings)[booking := Entities.MarkCompleted(old(st.bookings)[booking], now)]), booking, now)
    ensures out.Pass? ==>
      st.barbers == CountService(old(st.barbers), old(st.bookings)[booking].barber) &&
      st.broadcasts == old(st.broadcasts) + RemovalBroadcasts(old(st.queue), booking, st.queue)
    ensures out.Pass? ==>
      var salon := old(st.bookings)[booking].salon;
      st.notifications == old(st.notifications) + QueueService.NextNotices(st.queue, st.bookings, salon) +
        [Some(NotificationService.About(st.bookings, booking, ReviewRequest))]
    ensures out.Pass? ==> st.bookings[booking].status == Completed
  {
    if booking >= |st.bookings| {
      return Fail(NotFound(MissingBooking));
    }
    var b := st.bookings[booking];
    if b.status != InProgress {
      return Fail(Rejected(NotInProgress));
    }
    Finish(st, booking, now);
    Acknowledge(st, booking, b.barber, b.salon);
    out := Pass;
  }

  /** The barber is credited with the service, the next customers are told and a review is requested. */
  method Acknowledge(st: Store, booking: BookingId, barber: Option<BarberId>, salon: SalonId)
    requires st.Valid() && booking < |st.bookings|
    modifies st`barbers, st`notifications
    ensures st.Valid()
    ensures st.barbers == CountService(old(st.barbers), barber)
    ensures st.notifications == old(st.notifications) + QueueService.NextNotices(st.queue, st.bookings, salon) +
      [Some(NotificationService.About(st.bookings, booking, ReviewRequest))]
  {
    st.barbers := CountService(st.barbers, barber);
    QueueService.NotifyNextInQueue(st, salon);
    NotificationService.Send(st, booking, ReviewRequest);
  }

  /** The booking is completed now and leaves the queue. */
  method Finish(st: Store, booking: BookingId, now: Minutes)
    requires st.Valid() && booking < |st.bookings|
    requires st.bookings[booking].status == InProgress
    modifies st`bookings, st`queue, st`broadcasts, st`notifications
    ensures st.Valid()
    ensures QueueService.Linked(old(st.queue), old(st.bookings))
    ensures QueueService.Tables(st.queue, st.bookings) ==
      Removed(QueueService.Tables(old(st.queue),
                old(st.bookings)[booking := Entities.MarkCompleted(old(st.bookings)[booking], now)]), booking, now)
    ensures st.broadcasts == old(st.broadcasts) + RemovalBroadcasts(old(st.queue), booking, st.queue)
    ensures st.notifications == old(st.notifications)
    ensures st.bookings[booking].status == Completed
  {
    var b := st.bookings[booking];
    assert BookingRefs(b, |st.users|, |st.salons|, |st.services|, |st.barbers|);
    UpdateBookingKeepsConsistent(st.users, st.salons, st.services, st.barbers, st.bookings, st.queue,
                                 booking, Entities.MarkCompleted(b, now));
    st.bookings := st.bookings[booking := Entities.MarkCompleted(b, now)];
    Leave(st, booking, now);
  }

  // ----- Cancellations and no-shows -----

  /**
   * The checks of `cancelBooking`: the booking exists and is neither
   * completed nor already cancelled, and the cancelling user exists.
   */
  function CancelCheck(users: seq<User>, bs: seq<Booking>, booking: BookingId, user: UserId): (r: Outcome<Failure>)
    ensures r == Pass <==>
      booking < |bs| && bs[booking].status !in {Completed, Cancelled} && user < |users|
  {
    if booking >= |bs| then Fail(NotFound(MissingBooking))
    else if bs[booking].status == Completed || bs[booking].status == Cancelled then Fail(Rejected(CannotCancel))
    else if user >= |users| then Fail(NotFound(MissingUser))
    else Pass
  }

  /** The booking as `cancelBooking` leaves it: cancelled now by `user`, for `reason`. */
  function CancelledBy(b: Booking, user: UserId, reason: Option<string>, now: Minutes): (r: Booking)
    ensures r.status == Cancelled && r.cancelledBy == Some(user) && r.cancelledAt == Some(now)
    ensures r.cancellationReason == reason
    ensures r.(status := b.status, cancellationReason := b.cancellationReason, cancelledAt := b.cancelledAt,
               cancelledBy := b.cancelledBy) == b
  {
    b.(status := Cancelled, cancellationReason := reason, cancelledAt := Some(now), cancelledBy := Some(user))
  }

  /**
   * `cancelBooking`: the booking is cancelled and leaves the queue, and
   * its customer is told. Any failing check leaves everything as it was.
   */
  method CancelBooking(st: Store, booking: BookingId, user: UserId, reason: Option<string>, now: Minutes)
    returns (out: Outcome<Failure>)
    requires st.Valid()
    modifies st`bookings, st`queue, st`broadcasts, st`notifications
    ensures st.Valid()
    ensures out == CancelCheck(st.users, old(st.bookings), booking, user)
    ensures out.Fail? ==>
      st.bookings == old(st.bookings) && st.queue == old(st.queue) &&
      st.broadcasts == old(st.broadcasts) && st.notifications == old(st.notifications)
    ensures out.Pass? ==>
      QueueService.Linked(old(st.queue), old(st.bookings)) &&
      QueueService.Tables(st.queue, st.bookings) ==
        Removed(QueueService.Tables(old(st.queue),
                  old(st.bookings)[booking := CancelledBy(old(st.bookings)[booking], user, reason, now)]), booking, now)
    ensures out.Pass? ==>
      st.broadcasts == old(st.broadcasts) + RemovalBroadcasts(old(st.queue), booking, st.queue) &&
      st.notifications == old(st.notifications) + [Some(NotificationService.About(st.bookings, booking, BookingCancelled))]
    ensures out.Pass? ==> st.bookings[booking].status == Cancelled
  {
    if booking >= |st.bookings| {
      return Fail(NotFound(MissingBooking));
    }
    var b := st.bookings[booking];
    if b.status == Completed || b.status == Cancelled {
      return Fail(Rejected(CannotCancel));
    }
    if user >= |st.users| {
      return Fail(NotFound(MissingUser));
    }
    assert BookingRefs(b, |st.users|, |st.salons|, |st.services|, |st.barbers|);
    UpdateBookingKeepsConsistent(st.users, st.salons, st.services, st.barbers, st.bookings, st.queue,
                                 booking, CancelledBy(b, user, reason, now));
    st.bookings := st.bookings[booking := CancelledBy(b, user, reason, now)];
    Leave(st, booking, now);
    NotificationService.Send(st, booking, BookingCancelled);
    out := Pass;
  }

  /** The checks of `markNoShow`: the booking exists, and its customer's no-show counter is set. */
  function NoShowCheck(users: seq<User>, bs: seq<Booking>, booking: BookingId): (r: Outcome<Failure>)
    requires booking < |bs| ==> bs[booking].customer < |users|
    ensures booking >= |bs| ==> r == Fail(NotFound(MissingBooking))
    ensures booking < |bs| ==> (r == Pass <==> Entities.IncrementNoShowCount(users[bs[booking].customer]).Ok?)
    ensures booking < |bs| && r.Fail? ==> r == Fail(NullValue)
  {
    if booking >= |bs| then Fail(NotFound(MissingBooking))
    else if users[bs[booking].customer].noShowCount.None? then Fail(NullValue)
    else Pass
  }

  /**
   * `markNoShow`: whatever its status, the booking becomes a no-show and
   * leaves the queue, and its customer has one more no-show. Any failing
   * check leaves everything as it was.
   */
  method MarkNoShow(st: Store, booking: BookingId, now: Minutes) returns (out: Outcome<Failure>)
    requires st.Valid()
    modifies st`users, st`bookings, st`queue, st`broadcasts, st`notifications
    ensures st.Valid()
    ensures out == NoShowCheck(old(st.users), old(st.bookings), booking)
    ensures st.notifications == old(st.notifications)
    ensures out.Fail? ==>
      st.users == old(st.users) && st.bookings == old(st.bookings) &&
      st.queue == old(st.queue) && st.broadcasts == old(st.broadcasts)
    ensures out.Pass? ==>
      QueueService.Linked(old(st.queue), old(st.bookings)) &&
      QueueService.Tables(st.queue, st.bookings) ==
        Removed(QueueService.Tables(old(st.queue),
                  old(st.bookings)[booking := old(st.bookings)[booking].(status := NoShow)]), booking, now)
    ensures out.Pass? ==>
      var c := old(st.bookings)[booking].customer;
      st.users == old(st.users)[c := Entities.IncrementNoShowCount(old(st.users)[c]).value] &&
      st.broadcasts == old(st.broadcasts) + RemovalBroadcasts(old(st.queue), booking, st.queue)
    ensures out.Pass? ==>
      |st.bookings| == |old(st.bookings)| &&
      forall b :: 0 <= b < |old(st.bookings)| ==>
        Rescheduled(if b == booking then old(st.bookings)[b].(status := NoShow) else old(st.bookings)[b], st.bookings[b])
  {
    if booking >= |st.bookings| {
      return Fail(NotFound(MissingBooking));
    }
    var b := st.bookings[booking];
    assert BookingRefs(b, |st.users|, |st.salons|, |st.services|, |st.barbers|);
    var c := b.customer;
    if st.users[c].noShowCount.None? {
      return Fail(NullValue);
    }
    UpdateBookingKeepsConsistent(st.users, st.salons, st.services, st.barbers, st.bookings, st.queue,
                                 booking, b.(status := NoShow));
    st.bookings := st.bookings[booking := b.(status := NoShow)];
    var u := Entities.IncrementNoShowCount(st.users[c]).value;
    UpdateUserKeepsConsistent(st.users, st.salons, st.services, st.barbers, st.bookings, st.queue, c, u);
    st.users := st.users[c := u];
    Leave(st, booking, now);
    out := Pass;
  }

  // ----- Overdue bookings -----

  /** A booking `processOverdueBookings` marks a no-show: an overdue online booking. */
  predicate ToMark(b: Booking, cutoff: Minutes) {
    BookingRepository.IsOverdue(b, cutoff) && b.bookingType == Online
  }

  /** An unset counter stays unset; a set one grows by `n`. */
  function Plus(counter: Option<int>, n: nat): Option<int> {
    match counter
    case None => None
    case Some(v) => Some(v + n)
  }

  /** How many of the bookings `ids` are online bookings of customer `u`. */
  function Tally(bs: seq<Booking>, ids: seq<nat>, u: UserId): nat {
    if ids == [] then 0
    else
      var i := ids[|ids| - 1];
      Tally(bs, ids[..|ids| - 1], u) + (if i < |bs| && bs[i].bookingType == Online && bs[i].customer == u then 1 else 0)
  }

  /** The bookings once the online ones among `ids[..k]` are marked no-shows (all else up to rescheduling). */
  ghost predicate MarkedSoFar(bs0: seq<Booking>, ids: seq<nat>, k: nat, bs: seq<Booking>)
    requires k <= |ids|
  {
    |bs| == |bs0| &&
    forall i :: 0 <= i < |bs0| ==>
      Rescheduled(if i in ids[..k] && bs0[i].bookingType == Online then bs0[i].(status := NoShow) else bs0[i], bs[i])
  }

  /** The users once the customers of the online bookings among `ids[..k]` are counted a no-show each. */
  ghost predicate CountedSoFar(users0: seq<User>, bs0: seq<Booking>, ids: seq<nat>, k: nat, users: seq<User>)
    requires k <= |ids|
  {
    |users| == |users0| &&
    forall u :: 0 <= u < |users0| ==>
      users[u] == users0[u].(noShowCount := Plus(users0[u].noShowCount, Tally(bs0, ids[..k], u)))
  }

  /** Marking the next booking, an online one, a no-show extends what is marked. */
  lemma MarkedStep(bs0: seq<Booking>, ids: seq<nat>, k: nat, bs: seq<Booking>, bs': seq<Booking>)
    requires k < |ids| && Distinct(ids) && ids[k] < |bs0| && bs0[ids[k]].bookingType == Online
    requires MarkedSoFar(bs0, ids, k, bs)
    requires |bs'| == |bs| &&
      forall b :: 0 <= b < |bs| ==> Rescheduled(if b == ids[k] then bs[b].(status := NoShow) else bs[b], bs'[b])
    ensures MarkedSoFar(bs0, ids, k + 1, bs')
  {
    assert ids[..k + 1] == ids[..k] + [ids[k]];
    assert ids[k] !in ids[..k] by {
      forall j | 0 <= j < k
        ensures ids[j] != ids[k]
      {
      }
    }
  }

  /** Skipping a walk-in leaves what is marked as it was. */
  lemma MarkedSkip(bs0: seq<Booking>, ids: seq<nat>, k: nat, bs: seq<Booking>)
    requires k < |ids| && ids[k] < |bs0| && bs0[ids[k]].bookingType != Online
    requires MarkedSoFar(bs0, ids, k, bs)
    ensures MarkedSoFar(bs0, ids, k + 1, bs)
  {
    assert ids[..k + 1] == ids[..k] + [ids[k]];
  }

  /** Counting the customer of the next booking, an online one, extends what is counted. */
  lemma CountedStep(users0: seq<User>, bs0: seq<Booking>, ids: seq<nat>, k: nat, users: seq<User>)
    requires k < |ids| && ids[k] < |bs0| && bs0[ids[k]].bookingType == Online && bs0[ids[k]].customer < |users0|
    requires CountedSoFar(users0, bs0, ids, k, users)
    requires users[bs0[ids[k]].customer].noShowCount.Some?
    ensures var c := bs0[ids[k]].customer;
      CountedSoFar(users0, bs0, ids, k + 1, users[c := Entities.IncrementNoShowCount(users[c]).value])
  {
    assert ids[..k + 1][..k] == ids[..k];
  }

  /** Skipping a walk-in leaves what is counted as it was. */
  lemma CountedSkip(users0: seq<User>, bs0: seq<Booking>, ids: seq<nat>, k: nat, users: seq<User>)
    requires k < |ids| && ids[k] < |bs0| && bs0[ids[k]].bookingType != Online
    requires CountedSoFar(users0, bs0, ids, k, users)
    ensures CountedSoFar(users0, bs0, ids, k + 1, users)
  {
    assert ids[..k + 1][..k] == ids[..k];
  }

  /** Some overdue online booking belongs to a customer whose no-show counter is unset. */
  predicate UnsetCounterDue(users: seq<User>, bs: seq<Booking>, cutoff: Minutes) {
    exists i :: 0 <= i < |bs| && ToMark(bs[i], cutoff) && bs[i].customer < |users| && users[bs[i].customer].noShowCount.None?
  }

  /** With no such customer, every overdue online booking's customer has a counter to increment. */
  lemma CountersSet(users0: seq<User>, bs0: seq<Booking>, cutoff: Minutes)
    requires forall i :: 0 <= i < |bs0| ==> bs0[i].customer < |users0|
    requires !UnsetCounterDue(users0, bs0, cutoff)
    ensures var ids := BookingRepository.FindOverdueBookings(bs0, cutoff);
      forall k :: 0 <= k < |ids| && bs0[ids[k]].bookingType == Online ==> users0[bs0[ids[k]].customer].noShowCount.Some?
  {
    var ids := BookingRepository.FindOverdueBookings(bs0, cutoff);
    forall k | 0 <= k < |ids| && bs0[ids[k]].bookingType == Online
      ensures users0[bs0[ids[k]].customer].noShowCount.Some?
    {
      assert ToMark(bs0[ids[k]], cutoff);
    }
  }

  /** The queue and bookings part way through a sweep, and what it has broadcast so far. */
  datatype Sweep = Sweep(tables: QueueService.Tables, sent: seq<Broadcast>)

  /**
   * One turn of the sweep from `t`: when booking `b` is an online booking it
   * becomes a no-show and leaves the queue, which broadcasts its salon's
   * live queue when it had an entry; otherwise nothing happens.
   */
  function Step(t: QueueService.Tables, b: nat, now: Minutes): (r: Sweep)
    requires QueueService.Linked(t.queue, t.bookings)
    ensures |r.tables.bookings| == |t.bookings| && QueueService.Linked(r.tables.queue, r.tables.bookings)
  {
    if b < |t.bookings| && t.bookings[b].bookingType == Online then
      var after := Removed(QueueService.Tables(t.queue, t.bookings[b := t.bookings[b].(status := NoShow)]), b, now);
      Sweep(after, RemovalBroadcasts(t.queue, b, after.queue))
    else Sweep(t, [])
  }

  /** The sweep over `ids` from `t`, one turn per id in order, with everything it broadcasts. */
  function SweepOf(t: QueueService.Tables, ids: seq<nat>, now: Minutes): (r: Sweep)
    requires QueueService.Linked(t.queue, t.bookings)
    ensures |r.tables.bookings| == |t.bookings| && QueueService.Linked(r.tables.queue, r.tables.bookings)
  {
    if ids == [] then Sweep(t, [])
    else
      var before := SweepOf(t, ids[..|ids| - 1], now);
      var step := Step(before.tables, ids[|ids| - 1], now);
      Sweep(step.tables, before.sent + step.sent)
  }

  /** Sweeping one more id is one more step after the sweep so far. */
  lemma SweepOneMore(t: QueueService.Tables, ids: seq<nat>, k: nat, now: Minutes)
    requires QueueService.Linked(t.queue, t.bookings) && k < |ids|
    ensures var before := SweepOf(t, ids[..k], now);
      var step := Step(before.tables, ids[k], now);
      SweepOf(t, ids[..k + 1], now) == Sweep(step.tables, before.sent + step.sent)
  {
    assert ids[..k + 1][..k] == ids[..k];
  }

  /**
   * One turn of `processOverdueBookings`' loop: the `k`-th overdue booking,
   * when it is an online one, is marked a no-show; a walk-in is skipped.
   */
  method MarkOverdue(st: Store, ids: seq<nat>, k: nat, users0: seq<User>, bs0: seq<Booking>, now: Minutes)
    requires st.Valid()
    requires k < |ids| && Distinct(ids) && ids[k] < |bs0| && bs0[ids[k]].customer < |users0|
    requires bs0[ids[k]].bookingType == Online ==> users0[bs0[ids[k]].customer].noShowCount.Some?
    requires MarkedSoFar(bs0, ids, k, st.bookings) && CountedSoFar(users0, bs0, ids, k, st.users)
    modifies st`users, st`bookings, st`queue, st`broadcasts, st`notifications
    ensures st.Valid()
    ensures st.notifications == old(st.notifications)
    ensures MarkedSoFar(bs0, ids, k + 1, st.bookings) && CountedSoFar(users0, bs0, ids, k + 1, st.users)
    ensures QueueService.Linked(old(st.queue), old(st.bookings))
    ensures var step := Step(QueueService.Tables(old(st.queue), old(st.bookings)), ids[k], now);
      QueueService.Tables(st.queue, st.bookings) == step.tables && st.broadcasts == old(st.broadcasts) + step.sent
  {
    var booking := ids[k];
    assert booking !in ids[..k] by {
      forall j | 0 <= j < k
        ensures ids[j] != booking
      {
      }
    }
    assert Rescheduled(bs0[booking], st.bookings[booking]);
    if st.bookings[booking].bookingType == Online {
      ghost var users1, bs1 := st.users, st.bookings;
      var out := MarkNoShow(st, booking, now);
      if out.Fail? {
        assert false;
      }
      MarkedStep(bs0, ids, k, bs1, st.bookings);
      CountedStep(users0, bs0, ids, k, users1);
    } else {
      MarkedSkip(bs0, ids, k, st.bookings);
      CountedSkip(users0, bs0, ids, k, st.users);
    }
  }

  /** One turn of the loop, which extends the sweep over `ids[..k]` from `t0` by one id. */
  method SweepTurn(st: Store, ids: seq<nat>, k: nat, users0: seq<User>, bs0: seq<Booking>,
                   ghost t0: QueueService.Tables, ghost sent0: seq<Broadcast>, now: Minutes)
    requires st.Valid()
    requires k < |ids| && Distinct(ids) && ids[k] < |bs0| && bs0[ids[k]].customer < |users0|
    requires bs0[ids[k]].bookingType == Online ==> users0[bs0[ids[k]].customer].noShowCount.Some?
    requires MarkedSoFar(bs0, ids, k, st.bookings) && CountedSoFar(users0, bs0, ids, k, st.users)
    requires QueueService.Linked(t0.queue, t0.bookings)
    requires QueueService.Tables(st.queue, st.bookings) == SweepOf(t0, ids[..k], now).tables
    requires st.broadcasts == sent0 + SweepOf(t0, ids[..k], now).sent
    modifies st`users, st`bookings, st`queue, st`broadcasts, st`notifications
    ensures st.Valid()
    ensures st.notifications == old(st.notifications)
    ensures MarkedSoFar(bs0, ids, k + 1, st.bookings) && CountedSoFar(users0, bs0, ids, k + 1, st.users)
    ensures QueueService.Tables(st.queue, st.bookings) == SweepOf(t0, ids[..k + 1], now).tables
    ensures st.broadcasts == sent0 + SweepOf(t0, ids[..k + 1], now).sent
  {
    ghost var before := SweepOf(t0, ids[..k], now);
    ghost var step := Step(before.tables, ids[k], now);
    MarkOverdue(st, ids, k, users0, bs0, now);
    assert QueueService.Tables(st.queue, st.bookings) == step.tables;
    assert st.broadcasts == sent0 + (before.sent + step.sent);
    SweepOneMore(t0, ids, k, now);
  }

  /** Nothing is marked or counted before the first turn. */
  lemma NothingSoFar(users0: seq<User>, bs0: seq<Booking>, ids: seq<nat>)
    ensures MarkedSoFar(bs0, ids, 0, bs0) && CountedSoFar(users0, bs0, ids, 0, users0)
  {
  }

  /** The loop of `processOverdueBookings`: the overdue bookings `ids`, in turn. */
  method MarkAllOverdue(st: Store, ids: seq<nat>, users0: seq<User>, bs0: seq<Booking>, now: Minutes)
    requires st.Valid() && Distinct(ids)
    requires forall k :: 0 <= k < |ids| ==> ids[k] < |bs0|
    requires forall i :: 0 <= i < |bs0| ==> bs0[i].customer < |users0|
    requires forall k :: 0 <= k < |ids| && bs0[ids[k]].bookingType == Online ==> users0[bs0[ids[k]].customer].noShowCount.Some?
    requires MarkedSoFar(bs0, ids, 0, st.bookings) && CountedSoFar(users0, bs0, ids, 0, st.users)
    modifies st`users, st`bookings, st`queue, st`broadcasts, st`notifications
    ensures st.Valid()
    ensures st.notifications == old(st.notifications)
    ensures MarkedSoFar(bs0, ids, |ids|, st.bookings) && CountedSoFar(users0, bs0, ids, |ids|, st.users)
    ensures QueueService.Linked(old(st.queue), old(st.bookings))
    ensures var r := SweepOf(QueueService.Tables(old(st.queue), old(st.bookings)), ids, now);
      QueueService.Tables(st.queue, st.bookings) == r.tables && st.broadcasts == old(st.broadcasts) + r.sent
  {
    ghost var t0 := QueueService.Tables(st.queue, st.bookings);
    ghost var sent0 := st.broadcasts;
    assert QueueService.Linked(t0.queue, t0.bookings);
    assert ids[..0] == [];
    var k := 0;
    while k < |ids|
      invariant 0 <= k <= |ids|
      invariant st.Valid()
      invariant st.notifications == old(st.notifications)
      invariant MarkedSoFar(bs0, ids, k, st.bookings) && CountedSoFar(users0, bs0, ids, k, st.users)
      invariant QueueService.Tables(st.queue, st.bookings) == SweepOf(t0, ids[..k], now).tables
      invariant st.broadcasts == sent0 + SweepOf(t0, ids[..k], now).sent
    {
      SweepTurn(st, ids, k, users0, bs0, t0, sent0, now);
      k := k + 1;
    }
    assert ids[..k] == ids;
  }

  /** The bookings once every overdue online booking among them is a no-show. */
  function MarkedNoShows(bs: seq<Booking>, cutoff: Minutes): (r: seq<Booking>)
    ensures |r| == |bs|
    ensures forall i :: 0 <= i < |bs| ==> r[i].(status := bs[i].status) == bs[i]
    ensures forall i :: 0 <= i < |bs| ==> r[i].status == if ToMark(bs[i], cutoff) then NoShow else bs[i].status
  {
    seq(|bs|, i requires 0 <= i < |bs| => if ToMark(bs[i], cutoff) then bs[i].(status := NoShow) else bs[i])
  }

  /** `after` is `before` booking by booking, up to rescheduling. */
  ghost predicate AllRescheduled(before: seq<Booking>, after: seq<Booking>) {
    |after| == |before| && forall i :: 0 <= i < |before| ==> Rescheduled(before[i], after[i])
  }

  /** Once every overdue booking is handled, the marked bookings are exactly the overdue online ones. */
  lemma AllOverdueMarked(bs0: seq<Booking>, cutoff: Minutes, bs: seq<Booking>)
    requires var ids := BookingRepository.FindOverdueBookings(bs0, cutoff);
      MarkedSoFar(bs0, ids, |ids|, bs)
    ensures AllRescheduled(MarkedNoShows(bs0, cutoff), bs)
  {
    var ids := BookingRepository.FindOverdueBookings(bs0, cutoff);
    var marked := MarkedNoShows(bs0, cutoff);
    assert ids[..|ids|] == ids;
    forall i | 0 <= i < |bs0|
      ensures Rescheduled(marked[i], bs[i])
    {
      assert i in ids <==> BookingRepository.IsOverdue(bs0[i], cutoff) by {
        if i in ids {
          var k :| 0 <= k < |ids| && ids[k] == i;
        }
      }
    }
  }

  /** `users` is `users0` with each customer counted a no-show per overdue online booking of theirs. */
  ghost predicate NoShowsCounted(users0: seq<User>, bs0: seq<Booking>, cutoff: Minutes, users: seq<User>) {
    var ids := BookingRepository.FindOverdueBookings(bs0, cutoff);
    |users| == |users0| &&
    forall u :: 0 <= u < |users0| ==> users[u] == users0[u].(noShowCount := Plus(users0[u].noShowCount, Tally(bs0, ids, u)))
  }

  /** Once every overdue booking is handled, each customer is counted once per overdue online booking. */
  lemma AllOverdueCounted(users0: seq<User>, bs0: seq<Booking>, cutoff: Minutes, users: seq<User>)
    requires var ids := BookingRepository.FindOverdueBookings(bs0, cutoff);
      CountedSoFar(users0, bs0, ids, |ids|, users)
    ensures NoShowsCounted(users0, bs0, cutoff, users)
  {
    var ids := BookingRepository.FindOverdueBookings(bs0, cutoff);
    assert ids[..|ids|] == ids;
  }

  /**
   * The database after every overdue online booking before `cutoff` is
   * marked a no-show: the bookings are the marked ones up to rescheduling
   * and each customer is counted once per such booking of theirs.
   */
  ghost predicate OverdueHandled(users0: seq<User>, bs0: seq<Booking>, cutoff: Minutes, users: seq<User>, bs: seq<Booking>) {
    AllRescheduled(MarkedNoShows(bs0, cutoff), bs) && NoShowsCounted(users0, bs0, cutoff, users)
  }

  /** Every booking overdue at `cutoff` handled in turn, when no customer concerned has an unset counter. */
  method MarkOverdueBookings(st: Store, cutoff: Minutes, now: Minutes)
    requires st.Valid() && !UnsetCounterDue(st.users, st.bookings, cutoff)
    modifies st`users, st`bookings, st`queue, st`broadcasts, st`notifications
    ensures st.Valid()
    ensures st.notifications == old(st.notifications)
    ensures OverdueHandled(old(st.users), old(st.bookings), cutoff, st.users, st.bookings)
    ensures QueueService.Linked(old(st.queue), old(st.bookings))
    ensures var r := OverdueSweep(old(st.queue), old(st.bookings), cutoff, now);
      QueueService.Tables(st.queue, st.bookings) == r.tables && st.broadcasts == old(st.broadcasts) + r.sent
  {
    var ids := BookingRepository.FindOverdueBookings(st.bookings, cutoff);
    IncreasingIsDistinct(ids);
    var users0, bs0 := st.users, st.bookings;
    CountersSet(users0, bs0, cutoff);
    NothingSoFar(users0, bs0, ids);
    MarkAllOverdue(st, ids, users0, bs0, now);
    AllOverdueMarked(bs0, cutoff, st.bookings);
    AllOverdueCounted(users0, bs0, cutoff, st.users);
  }

  /** Booking `i` is an online booking whose customer's no-show counter is unset, so marking it fails. */
  predicate Stalls(users: seq<User>, bs: seq<Booking>, i: nat) {
    i < |bs| && bs[i].bookingType == Online && bs[i].customer < |users| && users[bs[i].customer].noShowCount.None?
  }

  /**
   * How many of the overdue bookings `ids` a run gets through: those before
   * the first one that stalls, or all of them.
   */
  function Reached(users: seq<User>, bs: seq<Booking>, ids: seq<nat>): (k: nat)
    ensures k <= |ids|
    ensures forall j :: 0 <= j < k ==> !Stalls(users, bs, ids[j])
    ensures k < |ids| ==> Stalls(users, bs, ids[k])
  {
    var p := (j: nat) => j < |ids| && Stalls(users, bs, ids[j]);
    var first := First(|ids|, p);
    var k := if first.None? then |ids| else first.value;
    assert forall j :: 0 <= j < k ==> !Stalls(users, bs, ids[j]) by {
      forall j | 0 <= j < k
        ensures !Stalls(users, bs, ids[j])
      {
        assert !p(j);
      }
    }
    k
  }

  /** A run stops short of the end exactly when some customer concerned has an unset counter. */
  lemma StopsShortIffUnset(users: seq<User>, bs: seq<Booking>, cutoff: Minutes)
    ensures var ids := BookingRepository.FindOverdueBookings(bs, cutoff);
      Reached(users, bs, ids) < |ids| <==> UnsetCounterDue(users, bs, cutoff)
  {
    var ids := BookingRepository.FindOverdueBookings(bs, cutoff);
    var k := Reached(users, bs, ids);
    if k < |ids| {
      assert ToMark(bs[ids[k]], cutoff);
    }
    if UnsetCounterDue(users, bs, cutoff) {
      var i :| 0 <= i < |bs| && ToMark(bs[i], cutoff) && bs[i].customer < |users| && users[bs[i].customer].noShowCount.None?;
      assert i in ids;
      var j :| 0 <= j < |ids| && ids[j] == i;
      assert Stalls(users, bs, ids[j]);
    }
  }

  /** Every booking's customer is a stored user. */
  lemma CustomersExist(st: Store)
    requires st.Valid()
    ensures forall j :: 0 <= j < |st.bookings| ==> st.bookings[j].customer < |st.users|
  {
    forall j | 0 <= j < |st.bookings|
      ensures st.bookings[j].customer < |st.users|
    {
      assert BookingRefs(st.bookings[j], |st.users|, |st.salons|, |st.services|, |st.barbers|);
    }
  }

  /** Before the first booking that stalls, every online booking's customer has a counter. */
  lemma CountersSetBeforeStall(users: seq<User>, bs: seq<Booking>, ids: seq<nat>, k: nat)
    requires k <= |ids| && forall j :: 0 <= j < |ids| ==> ids[j] < |bs|
    requires forall j :: 0 <= j < |bs| ==> bs[j].customer < |users|
    requires forall j :: 0 <= j < k ==> !Stalls(users, bs, ids[j])
    ensures var turns := ids[..k];
      forall j :: 0 <= j < |turns| && bs[turns[j]].bookingType == Online ==> users[bs[turns[j]].customer].noShowCount.Some?
  {
    var turns := ids[..k];
    forall j | 0 <= j < |turns| && bs[turns[j]].bookingType == Online
      ensures users[bs[turns[j]].customer].noShowCount.Some?
    {
      assert !Stalls(users, bs, ids[j]);
    }
  }

  /**
   * A failing run: the bookings before the stalling one handled in turn,
   * then the tables rolled back; the broadcasts already sent remain.
   */
  method MarkUntilStalled(st: Store, ids: seq<nat>, k: nat, now: Minutes)
    requires st.Valid() && Increasing(ids) && k <= |ids|
    requires forall j :: 0 <= j < |ids| ==> ids[j] < |st.bookings|
    requires forall j :: 0 <= j < k ==> !Stalls(st.users, st.bookings, ids[j])
    modifies st`users, st`bookings, st`queue, st`broadcasts, st`notifications
    ensures st.Valid()
    ensures st.notifications == old(st.notifications)
    ensures st.users == old(st.users) && st.bookings == old(st.bookings) && st.queue == old(st.queue)
    ensures QueueService.Linked(old(st.queue), old(st.bookings))
    ensures st.broadcasts == old(st.broadcasts) + SweepOf(QueueService.Tables(old(st.queue), old(st.bookings)), ids[..k], now).sent
  {
    var users0, bs0, queue0 := st.users, st.bookings, st.queue;
    var turns := ids[..k];
    IncreasingIsDistinct(turns);
    CustomersExist(st);
    CountersSetBeforeStall(users0, bs0, ids, k);
    NothingSoFar(users0, bs0, turns);
    MarkAllOverdue(st, turns, users0, bs0, now);
    st.users, st.bookings, st.queue := users0, bs0, queue0;
  }

  /** The sweep of a whole run at `cutoff` over the overdue bookings. */
  function OverdueSweep(q: seq<QueueEntry>, bs: seq<Booking>, cutoff: Minutes, now: Minutes): Sweep
    requires QueueService.Linked(q, bs)
  {
    SweepOf(QueueService.Tables(q, bs), BookingRepository.FindOverdueBookings(bs, cutoff), now)
  }

  /** What a failing run at `cutoff` has broadcast: the removals of the bookings before the one that stalls. */
  function StalledBroadcasts(users: seq<User>, q: seq<QueueEntry>, bs: seq<Booking>, cutoff: Minutes, now: Minutes): seq<Broadcast>
    requires QueueService.Linked(q, bs)
  {
    var ids := BookingRepository.FindOverdueBookings(bs, cutoff);
    SweepOf(QueueService.Tables(q, bs), ids[..Reached(users, bs, ids)], now).sent
  }

  /** A run at `cutoff` that fails at the first booking that stalls. */
  method FailOverdue(st: Store, cutoff: Minutes, now: Minutes)
    requires st.Valid() && UnsetCounterDue(st.users, st.bookings, cutoff)
    modifies st`users, st`bookings, st`queue, st`broadcasts, st`notifications
    ensures st.Valid()
    ensures st.notifications == old(st.notifications)
    ensures st.users == old(st.users) && st.bookings == old(st.bookings) && st.queue == old(st.queue)
    ensures QueueService.Linked(old(st.queue), old(st.bookings))
    ensures st.broadcasts == old(st.broadcasts) + StalledBroadcasts(old(st.users), old(st.queue), old(st.bookings), cutoff, now)
  {
    var ids := BookingRepository.FindOverdueBookings(st.bookings, cutoff);
    StopsShortIffUnset(st.users, st.bookings, cutoff);
    MarkUntilStalled(st, ids, Reached(st.users, st.bookings, ids), now);
  }

  /**
   * `processOverdueBookings`: every online booking that is confirmed but
   * not started more than `autoCancelMinutes` after its estimated start
   * becomes a no-show and leaves the queue, and its customer's no-show
   * counter grows by one for each; walk-ins are left alone. When some such
   * customer's counter is unset the run fails at that booking: the
   * transaction rolls back the tables, but the queue broadcasts of the
   * bookings handled before it have already been sent.
   */
  method ProcessOverdueBookings(st: Store, autoCancelMinutes: int, now: Minutes) returns (out: Outcome<Failure>)
    requires st.Valid()
    modifies st`users, st`bookings, st`queue, st`broadcasts, st`notifications
    ensures st.Valid()
    ensures st.notifications == old(st.notifications)
    ensures QueueService.Linked(old(st.queue), old(st.bookings))
    ensures out.Fail? <==> UnsetCounterDue(old(st.users), old(st.bookings), MinusMinutes(now, autoCancelMinutes))
    ensures out.Fail? ==>
      out.error == NullValue && st.users == old(st.users) && st.bookings == old(st.bookings) &&
      st.queue == old(st.queue)
    ensures out.Fail? ==>
      st.broadcasts == old(st.broadcasts) + StalledBroadcasts(old(st.users), old(st.queue), old(st.bookings), MinusMinutes(now, autoCancelMinutes), now)
    ensures out.Pass? ==> OverdueHandled(old(st.users), old(st.bookings), MinusMinutes(now, autoCancelMinutes), st.users, st.bookings)
    ensures out.Pass? ==> var r := OverdueSweep(old(st.queue), old(st.bookings), MinusMinutes(now, autoCancelMinutes), now);
      QueueService.Tables(st.queue, st.bookings) == r.tables && st.broadcasts == old(st.broadcasts) + r.sent
  {
    var cutoff := MinusMinutes(now, autoCancelMinutes);
    if UnsetCounterDue(st.users, st.bookings, cutoff) {
      FailOverdue(st, cutoff, now);
      return Fail(NullValue);
    }
    MarkOverdueBookings(st, cutoff, now);
    out := Pass;
  }
}

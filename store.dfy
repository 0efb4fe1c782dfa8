/**
 * The database the services work on: one sequence per table, an entity's id
 * being its index. Deleted reviews and notifications leave a `None` behind so
 * that ids stay stable. `broadcasts` records what was pushed to the salons'
 * live-queue subscribers.
 */
module Store {
  import opened Wrappers
  import opened Domain

  /** One message on a salon's live-queue topic: the queue as it then stood. */
  datatype Broadcast = Broadcast(salon: SalonId, entries: seq<QueueEntry>)

  /** A booking refers to existing rows. */
  predicate BookingRefs(b: Booking, users: nat, salons: nat, services: nat, barbers: nat) {
    b.customer < users && b.salon < salons && b.service < services &&
    (b.barber.Some? ==> b.barber.value < barbers)
  }

  /** Every queue entry refers to an existing booking. */
  ghost predicate QueueRefs(q: seq<QueueEntry>, bs: seq<Booking>) {
    forall i :: 0 <= i < |q| ==> q[i].booking < |bs|
  }

  /** Only bookings past the pending stage have a queue entry. */
  ghost predicate QueuedAreNotPending(q: seq<QueueEntry>, bs: seq<Booking>) {
    forall i :: 0 <= i < |q| && q[i].booking < |bs| ==> bs[q[i].booking].status != Pending
  }

  /** A booking has at most one queue entry. */
  ghost predicate OneEntryPerBooking(q: seq<QueueEntry>) {
    forall i, j :: 0 <= i < j < |q| ==> q[i].booking != q[j].booking
  }

  /**
   * A waiting entry's position is also recorded on its booking, so the two
   * never disagree.
   */
  ghost predicate PositionsMirrored(q: seq<QueueEntry>, bs: seq<Booking>) {
    forall i :: 0 <= i < |q| && q[i].status == Waiting && q[i].booking < |bs| ==>
      bs[q[i].booking].queuePosition == Some(q[i].position)
  }

  /** No two users share a phone number (a unique column). */
  ghost predicate PhonesUnique(users: seq<User>) {
    forall i, j :: 0 <= i < j < |users| ==> users[i].phone != users[j].phone
  }

  /** The invariants every committed state keeps, on plain values. */
  ghost predicate Consistent(users: seq<User>, salons: seq<Salon>, services: seq<Service>,
                             barbers: seq<Barber>, bookings: seq<Booking>, queue: seq<QueueEntry>)
  {
    (forall i :: 0 <= i < |bookings| ==> BookingRefs(bookings[i], |users|, |salons|, |services|, |barbers|)) &&
    QueueRefs(queue, bookings) && QueuedAreNotPending(queue, bookings) &&
    OneEntryPerBooking(queue) && PositionsMirrored(queue, bookings) && PhonesUnique(users)
  }

  /** Adding a booking that refers to existing rows keeps the database consistent. */
  lemma AddBookingKeepsConsistent(users: seq<User>, salons: seq<Salon>, services: seq<Service>, barbers: seq<Barber>,
                                  bs: seq<Booking>, q: seq<QueueEntry>, b: Booking)
    requires Consistent(users, salons, services, barbers, bs, q)
    requires BookingRefs(b, |users|, |salons|, |services|, |barbers|)
    ensures Consistent(users, salons, services, barbers, bs + [b], q)
  {
    var bs' := bs + [b];
    assert forall i :: 0 <= i < |bs| ==> bs'[i] == bs[i];
  }

  /**
   * Replacing a booking keeps the database consistent when the new one
   * refers to existing rows, records the same place in the queue, and is
   * pending only if the old one was.
   */
  lemma UpdateBookingKeepsConsistent(users: seq<User>, salons: seq<Salon>, services: seq<Service>, barbers: seq<Barber>,
                                     bs: seq<Booking>, q: seq<QueueEntry>, booking: BookingId, b: Booking)
    requires Consistent(users, salons, services, barbers, bs, q)
    requires booking < |bs| && BookingRefs(b, |users|, |salons|, |services|, |barbers|)
    requires b.queuePosition == bs[booking].queuePosition
    requires b.status == Pending ==> bs[booking].status == Pending
    ensures Consistent(users, salons, services, barbers, bs[booking := b], q)
  {
  }

  /** Replacing a user by one with the same phone keeps the database consistent. */
  lemma UpdateUserKeepsConsistent(users: seq<User>, salons: seq<Salon>, services: seq<Service>, barbers: seq<Barber>,
                                  bs: seq<Booking>, q: seq<QueueEntry>, user: UserId, u: User)
    requires Consistent(users, salons, services, barbers, bs, q)
    requires user < |users| && u.phone == users[user].phone
    ensures Consistent(users[user := u], salons, services, barbers, bs, q)
  {
  }

  /** Adding a user whose phone nobody has keeps the database consistent. */
  lemma AddUserKeepsConsistent(users: seq<User>, salons: seq<Salon>, services: seq<Service>, barbers: seq<Barber>,
                               bs: seq<Booking>, q: seq<QueueEntry>, u: User)
    requires Consistent(users, salons, services, barbers, bs, q)
    requires forall i :: 0 <= i < |users| ==> users[i].phone != u.phone
    ensures Consistent(users + [u], salons, services, barbers, bs, q)
  {
    var users' := users + [u];
    assert forall i :: 0 <= i < |users| ==> users'[i] == users[i];
  }

  /** Replacing a barber keeps the database consistent. */
  lemma UpdateBarberKeepsConsistent(users: seq<User>, salons: seq<Salon>, services: seq<Service>, barbers: seq<Barber>,
                                    bs: seq<Booking>, q: seq<QueueEntry>, barber: BarberId, b: Barber)
    requires Consistent(users, salons, services, barbers, bs, q)
    requires barber < |barbers|
    ensures Consistent(users, salons, services, barbers[barber := b], bs, q)
  {
  }

  /** Adding salons, services or barbers keeps the database consistent. */
  lemma GrowKeepsConsistent(users: seq<User>, salons: seq<Salon>, services: seq<Service>, barbers: seq<Barber>,
                            bs: seq<Booking>, q: seq<QueueEntry>,
                            salons': seq<Salon>, services': seq<Service>, barbers': seq<Barber>)
    requires Consistent(users, salons, services, barbers, bs, q)
    requires |salons| <= |salons'| && |services| <= |services'| && |barbers| <= |barbers'|
    ensures Consistent(users, salons', services', barbers', bs, q)
  {
    forall i | 0 <= i < |bs|
      ensures BookingRefs(bs[i], |users|, |salons'|, |services'|, |barbers'|)
    {
      assert BookingRefs(bs[i], |users|, |salons|, |services|, |barbers|);
    }
  }

  class Store {
    var users: seq<User>
    var salons: seq<Salon>
    var services: seq<Service>
    var barbers: seq<Barber>
    var bookings: seq<Booking>
    var queue: seq<QueueEntry>
    var reviews: seq<Option<Review>>
    var notifications: seq<Option<Notification>>
    var broadcasts: seq<Broadcast>

    ghost predicate Valid()
      reads this`users, this`salons, this`services, this`barbers, this`bookings, this`queue
    {
      Consistent(users, salons, services, barbers, bookings, queue)
    }

    /** An empty database. */
    constructor ()
      ensures Valid()
      ensures users == [] && salons == [] && services == [] && barbers == []
      ensures bookings == [] && queue == [] && reviews == [] && notifications == [] && broadcasts == []
    {
      users, salons, services, barbers := [], [], [], [];
      bookings, queue, reviews, notifications, broadcasts := [], [], [], [], [];
    }
  }
}

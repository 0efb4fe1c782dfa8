/** The queries of the booking table; a booking is named by its index in `bs`. */
module BookingRepository {
  import opened Wrappers
  import opened Domain
  import opened Collections
  import Entities

  /** Orders booking ids by estimated start time; ids outside the table sort first. */
  function StartKey(bs: seq<Booking>): nat -> int {
    (i: nat) => if i < |bs| then bs[i].estimatedStartTime else 0
  }

  /** Orders booking ids by estimated start time, latest first. */
  function LatestFirstKey(bs: seq<Booking>): nat -> int {
    (i: nat) => if i < |bs| then -bs[i].estimatedStartTime else 0
  }

  /** The ids of the bookings `keep` holds for, in table order. */
  function Where(bs: seq<Booking>, keep: Booking -> bool): (r: seq<nat>)
    ensures forall k :: 0 <= k < |r| ==> r[k] < |bs| && keep(bs[r[k]])
    ensures forall i :: 0 <= i < |bs| && keep(bs[i]) ==> i in r
    ensures Increasing(r)
  {
    var p := (i: nat) => i < |bs| && keep(bs[i]);
    FilterIncreasing(|bs|, p);
    Filter(|bs|, p)
  }

  /** `findByCustomerId`, in table order. */
  function ByCustomer(bs: seq<Booking>, customer: UserId): (r: seq<nat>)
    ensures forall k :: 0 <= k < |r| ==> r[k] < |bs| && bs[r[k]].customer == customer
    ensures forall i :: 0 <= i < |bs| && bs[i].customer == customer ==> i in r
    ensures Increasing(r)
  {
    Where(bs, (b: Booking) => b.customer == customer)
  }

  /** `findBySalonId`, in table order. */
  function BySalon(bs: seq<Booking>, salon: SalonId): (r: seq<nat>)
    ensures forall k :: 0 <= k < |r| ==> r[k] < |bs| && bs[r[k]].salon == salon
    ensures forall i :: 0 <= i < |bs| && bs[i].salon == salon ==> i in r
    ensures Increasing(r)
  {
    Where(bs, (b: Booking) => b.salon == salon)
  }

  /** `findByBarberId`, in table order. */
  function ByBarber(bs: seq<Booking>, barber: BarberId): (r: seq<nat>)
    ensures forall k :: 0 <= k < |r| ==> r[k] < |bs| && bs[r[k]].barber == Some(barber)
    ensures forall i :: 0 <= i < |bs| && bs[i].barber == Some(barber) ==> i in r
    ensures Increasing(r)
  {
    Where(bs, (b: Booking) => b.barber == Some(barber))
  }

  /** `findByStatus`, in table order. */
  function ByStatus(bs: seq<Booking>, status: BookingStatus): (r: seq<nat>)
    ensures forall k :: 0 <= k < |r| ==> r[k] < |bs| && bs[r[k]].status == status
    ensures forall i :: 0 <= i < |bs| && bs[i].status == status ==> i in r
    ensures Increasing(r)
  {
    Where(bs, (b: Booking) => b.status == status)
  }

  /** A booking that still needs the salon's attention. */
  predicate IsActive(b: Booking) {
    b.status == Pending || b.status == Confirmed || b.status == InProgress
  }

  /** A booking the customer is still expecting to attend. */
  predicate IsUpcoming(b: Booking) {
    b.status == Pending || b.status == Confirmed
  }

  /** `findActiveBookingsBySalon`: pending, confirmed or in progress, earliest start first. */
  function ActiveBySalon(bs: seq<Booking>, salon: SalonId): (r: seq<nat>)
    ensures forall k :: 0 <= k < |r| ==> r[k] < |bs| && bs[r[k]].salon == salon && IsActive(bs[r[k]])
    ensures forall i :: 0 <= i < |bs| && bs[i].salon == salon && IsActive(bs[i]) ==> i in r
    ensures SortedBy(r, StartKey(bs)) && Distinct(r)
  {
    Select(|bs|, (i: nat) => i < |bs| && bs[i].salon == salon && IsActive(bs[i]), StartKey(bs))
  }

  /** `findUpcomingBookingsByCustomer`: pending or confirmed, latest start first. */
  function UpcomingByCustomer(bs: seq<Booking>, customer: UserId): (r: seq<nat>)
    ensures forall k :: 0 <= k < |r| ==> r[k] < |bs| && bs[r[k]].customer == customer && IsUpcoming(bs[r[k]])
    ensures forall i :: 0 <= i < |bs| && bs[i].customer == customer && IsUpcoming(bs[i]) ==> i in r
    ensures forall j, k :: 0 <= j < k < |r| ==>
      bs[r[j]].estimatedStartTime >= bs[r[k]].estimatedStartTime
    ensures Distinct(r)
  {
    var r := Select(|bs|, (i: nat) => i < |bs| && bs[i].customer == customer && IsUpcoming(bs[i]),
      LatestFirstKey(bs));
    assert forall j, k :: 0 <= j < k < |r| ==> LatestFirstKey(bs)(r[j]) <= LatestFirstKey(bs)(r[k]);
    r
  }

  /** A booking of the salon estimated to start within `[start, end]`. */
  predicate InRange(b: Booking, salon: SalonId, start: Minutes, end: Minutes) {
    b.salon == salon && start <= b.estimatedStartTime <= end
  }

  /**
   * `findBySalonAndDateRange`: estimated start within `[start, end]`, both
   * ends included, earliest first.
   */
  function BySalonAndDateRange(bs: seq<Booking>, salon: SalonId, start: Minutes, end: Minutes): (r: seq<nat>)
    ensures forall k :: 0 <= k < |r| ==> r[k] < |bs| && InRange(bs[r[k]], salon, start, end)
    ensures forall i :: 0 <= i < |bs| && InRange(bs[i], salon, start, end) ==> i in r
    ensures SortedBy(r, StartKey(bs)) && Distinct(r)
    ensures end < start ==> r == []
  {
    Select(|bs|, (i: nat) => i < |bs| && InRange(bs[i], salon, start, end), StartKey(bs))
  }

  /** An online booking of the salon, pending or confirmed, not estimated to start before `now`. */
  predicate IsOnlineAhead(b: Booking, salon: SalonId, now: Minutes) {
    b.salon == salon && b.bookingType == Online && IsUpcoming(b) && b.estimatedStartTime >= now
  }

  /**
   * `countOnlineBookingsToday`: online bookings of the salon, pending or
   * confirmed, not estimated to start before `now` (there is no upper bound
   * on the day despite the name).
   */
  function CountOnlineBookingsToday(bs: seq<Booking>, salon: SalonId, now: Minutes): (c: nat)
    ensures c == |set i | 0 <= i < |bs| && IsOnlineAhead(bs[i], salon, now)|
    ensures c <= |bs|
    ensures c == 0 <==> forall i :: 0 <= i < |bs| ==> !IsOnlineAhead(bs[i], salon, now)
  {
    var p := (i: nat) => i < |bs| && IsOnlineAhead(bs[i], salon, now);
    var c := Count(|bs|, p);
    CountIsSize(|bs|, p);
    assert (set i: nat | i < |bs| && p(i)) == set i | 0 <= i < |bs| && IsOnlineAhead(bs[i], salon, now);
    assert c == 0 ==> forall i :: 0 <= i < |bs| ==> !IsOnlineAhead(bs[i], salon, now) by {
      if c == 0 {
        forall i | 0 <= i < |bs|
          ensures !IsOnlineAhead(bs[i], salon, now)
        {
          assert !p(i);
        }
      }
    }
    c
  }

  /** A confirmed booking, not started, estimated to start before `cutoff`. */
  predicate IsOverdue(b: Booking, cutoff: Minutes)
    ensures IsOverdue(b, cutoff) <==> b.status == Confirmed && Entities.IsLate(b, 0, cutoff)
  {
    b.status == Confirmed && b.estimatedStartTime < cutoff && b.actualStartTime.None?
  }

  /** `findOverdueBookings`, in table order. */
  function FindOverdueBookings(bs: seq<Booking>, cutoff: Minutes): (r: seq<nat>)
    ensures forall k :: 0 <= k < |r| ==> r[k] < |bs| && IsOverdue(bs[r[k]], cutoff)
    ensures forall i :: 0 <= i < |bs| && IsOverdue(bs[i], cutoff) ==> i in r
    ensures Increasing(r)
  {
    Where(bs, (b: Booking) => IsOverdue(b, cutoff))
  }

  /** An earlier cutoff finds no booking a later cutoff would not also find. */
  lemma OverdueGrowsWithCutoff(bs: seq<Booking>, c0: Minutes, c1: Minutes)
    requires c0 <= c1
    ensures forall i :: i in FindOverdueBookings(bs, c0) ==> i in FindOverdueBookings(bs, c1)
  {
    var r0 := FindOverdueBookings(bs, c0);
    forall i | i in r0
      ensures i in FindOverdueBookings(bs, c1)
    {
      var k :| 0 <= k < |r0| && r0[k] == i;
    }
  }
}

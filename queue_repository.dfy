/** The queries of the queue table; an entry is named by its index in `q`. */
module QueueRepository {
  import opened Wrappers
  import opened Domain
  import opened Collections

  /** Orders entry ids by queue position; ids outside the table sort first. */
  function PositionKey(q: seq<QueueEntry>): nat -> int {
    (i: nat) => if i < |q| then q[i].position else 0
  }

  /** The entries of one salon. */
  function InSalon(q: seq<QueueEntry>, salon: SalonId): nat -> bool {
    (i: nat) => i < |q| && q[i].salon == salon
  }

  /** The entries of one salon with one status. */
  function WithStatus(q: seq<QueueEntry>, salon: SalonId, status: QueueStatus): nat -> bool {
    (i: nat) => i < |q| && q[i].salon == salon && q[i].status == status
  }

  /** `findBySalonIdOrderByPositionAsc`: every entry of the salon, whatever its status. */
  function BySalon(q: seq<QueueEntry>, salon: SalonId): (r: seq<nat>)
    ensures forall i: nat :: i in r <==> i < |q| && q[i].salon == salon
    ensures forall k :: 0 <= k < |r| ==> r[k] < |q|
    ensures SortedBy(r, PositionKey(q)) && Distinct(r)
  {
    var r := Select(|q|, InSalon(q, salon), PositionKey(q));
    assert forall k :: 0 <= k < |r| ==> r[k] in r;
    r
  }

  /** `findBySalonIdAndStatusOrderByPositionAsc`. */
  function BySalonAndStatus(q: seq<QueueEntry>, salon: SalonId, status: QueueStatus): (r: seq<nat>)
    ensures forall i: nat :: i in r <==> i < |q| && q[i].salon == salon && q[i].status == status
    ensures forall k :: 0 <= k < |r| ==> r[k] < |q|
    ensures SortedBy(r, PositionKey(q)) && Distinct(r)
  {
    var r := Select(|q|, WithStatus(q, salon, status), PositionKey(q));
    assert forall k :: 0 <= k < |r| ==> r[k] in r;
    r
  }

  /** `findByBookingId`: the entry of a booking, if it has one. */
  function FindByBookingId(q: seq<QueueEntry>, booking: BookingId): (r: Option<nat>)
    ensures r.None? <==> forall i :: 0 <= i < |q| ==> q[i].booking != booking
    ensures r.Some? ==> r.value < |q| && q[r.value].booking == booking
  {
    var p := (i: nat) => i < |q| && q[i].booking == booking;
    var r := First(|q|, p);
    assert r.None? ==> forall i :: 0 <= i < |q| ==> q[i].booking != booking by {
      if r.None? {
        forall i | 0 <= i < |q|
          ensures q[i].booking != booking
        {
          assert !p(i);
        }
      }
    }
    r
  }

  /** `findMaxPositionBySalon` over the first `n` entries, all statuses included. */
  function MaxPositionIn(q: seq<QueueEntry>, salon: SalonId, n: nat): (r: Option<int>)
    requires n <= |q|
    ensures r.None? <==> forall i :: 0 <= i < n ==> q[i].salon != salon
    ensures r.Some? ==> exists i :: 0 <= i < n && q[i].salon == salon && q[i].position == r.value
    ensures r.Some? ==> forall i :: 0 <= i < n && q[i].salon == salon ==> q[i].position <= r.value
  {
    if n == 0 then None
    else
      var rest := MaxPositionIn(q, salon, n - 1);
      if q[n - 1].salon != salon then rest
      else if rest.Some? && rest.value >= q[n - 1].position then rest
      else Some(q[n - 1].position)
  }

  /**
   * `findMaxPositionBySalon`: the largest position of any entry of the salon
   * (waiting, in service, completed or skipped), or none for an empty queue.
   */
  function MaxPosition(q: seq<QueueEntry>, salon: SalonId): (r: Option<int>)
    ensures r.None? <==> forall i :: 0 <= i < |q| ==> q[i].salon != salon
    ensures r.Some? ==> exists i :: 0 <= i < |q| && q[i].salon == salon && q[i].position == r.value
    ensures r.Some? ==> forall i :: 0 <= i < |q| && q[i].salon == salon ==> q[i].position <= r.value
  {
    MaxPositionIn(q, salon, |q|)
  }

  /** `countWaitingCustomers`. */
  function CountWaiting(q: seq<QueueEntry>, salon: SalonId): (c: nat)
    ensures c <= |q|
    ensures c == 0 <==> forall i :: 0 <= i < |q| ==> !(q[i].salon == salon && q[i].status == Waiting)
  {
    var p := WithStatus(q, salon, Waiting);
    var c := Count(|q|, p);
    assert c == 0 ==> forall i :: 0 <= i < |q| ==> !(q[i].salon == salon && q[i].status == Waiting) by {
      if c == 0 {
        forall i | 0 <= i < |q|
          ensures !(q[i].salon == salon && q[i].status == Waiting)
        {
          assert !p(i);
        }
      }
    }
    c
  }

  /** The count agrees with the length of the salon's waiting list. */
  lemma CountWaitingIsListLength(q: seq<QueueEntry>, salon: SalonId)
    ensures CountWaiting(q, salon) == |BySalonAndStatus(q, salon, Waiting)|
  {
    var p := WithStatus(q, salon, Waiting);
    CountIsFilterLength(|q|, p);
    assert BySalonAndStatus(q, salon, Waiting) == SortBy(Filter(|q|, p), PositionKey(q));
  }
}

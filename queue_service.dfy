/**
 * The live queue of each salon: adding a confirmed booking at the tail,
 * renumbering the waiting entries after someone leaves, moving a late
 * arrival to the end, estimating waits and notifying the next customers.
 */
module QueueService {
  import opened Wrappers
  import opened Domain
  import opened Collections
  import opened Store
  import QueueRepository
  import NotificationService

  // ----- Wait estimation -----

  /** Every queue entry refers to an existing booking. */
  predicate Linked(q: seq<QueueEntry>, bs: seq<Booking>) {
    forall i :: 0 <= i < |q| ==> q[i].booking < |bs|
  }

  /** Every booking has a non-negative estimated duration. */
  predicate DurationsNonNegative(bs: seq<Booking>) {
    forall i :: 0 <= i < |bs| ==> bs[i].estimatedDurationMinutes >= 0
  }

  /** An entry that still occupies the queue ahead of `position`. */
  predicate IsAhead(e: QueueEntry, position: int) {
    e.position < position && (e.status == Waiting || e.status == InService)
  }

  /**
   * Minutes an entry ahead still takes: what is left of a started service
   * (never negative; nothing if the start time is unknown), or the whole
   * duration of a waiting one.
   */
  function Remaining(e: QueueEntry, b: Booking, now: Minutes): int {
    if e.status == InService then
      match b.actualStartTime
      case None => 0
      case Some(start) =>
        var left := b.estimatedDurationMinutes - (now - start);
        if left > 0 then left else 0
    else b.estimatedDurationMinutes
  }

  /** What the entry with id `i` adds to the wait for `position`: nothing unless it is ahead. */
  function Cost(q: seq<QueueEntry>, bs: seq<Booking>, position: int, now: Minutes): nat -> int {
    (i: nat) =>
      if i < |q| && q[i].booking < |bs| && IsAhead(q[i], position) then Remaining(q[i], bs[q[i].booking], now)
      else 0
  }

  /** What the first `n` entries of the table that belong to `salon` and are ahead of `position` still take. */
  function SalonWait(q: seq<QueueEntry>, bs: seq<Booking>, salon: SalonId, position: int, now: Minutes, n: nat): int
    requires n <= |q| && Linked(q, bs)
  {
    if n == 0 then 0
    else
      var e := q[n - 1];
      SalonWait(q, bs, salon, position, now, n - 1) +
        (if e.salon == salon && IsAhead(e, position) then Remaining(e, bs[e.booking], now) else 0)
  }

  /**
   * The estimated wait for `position` in a salon's queue: nothing for the
   * head of the queue, otherwise what the entries ahead still take.
   */
  function WaitAhead(q: seq<QueueEntry>, bs: seq<Booking>, salon: SalonId, position: int, now: Minutes): int
    requires Linked(q, bs)
  {
    if position <= 1 then 0 else SalonWait(q, bs, salon, position, now, |q|)
  }

  lemma {:induction false} SalonWaitIsSum(q: seq<QueueEntry>, bs: seq<Booking>, salon: SalonId, position: int, now: Minutes, n: nat)
    requires n <= |q| && Linked(q, bs)
    ensures SalonWait(q, bs, salon, position, now, n) ==
            SumWhere(n, QueueRepository.InSalon(q, salon), Cost(q, bs, position, now))
  {
    if n > 0 {
      SalonWaitIsSum(q, bs, salon, position, now, n - 1);
    }
  }

  /**
   * `calculateEstimatedWait`: walks the salon's queue in position order and
   * adds up what the entries ahead still take.
   */
  method CalculateEstimatedWait(q: seq<QueueEntry>, bs: seq<Booking>, salon: SalonId, position: int, now: Minutes)
    returns (total: int)
    requires Linked(q, bs)
    ensures total == WaitAhead(q, bs, salon, position, now)
  {
    if position <= 1 {
      return 0;
    }
    var ids := QueueRepository.BySalon(q, salon);
    ghost var cost := Cost(q, bs, position, now);
    total := 0;
    var k := 0;
    while k < |ids|
      invariant 0 <= k <= |ids|
      invariant total == Sum(ids[..k], cost)
    {
      var e := q[ids[k]];
      var share := Share(e, bs[e.booking], position, now);
      SumAheadStep(q, bs, position, now, ids, k);
      total := total + share;
      k := k + 1;
    }
    assert ids[..k] == ids;
    SumOfSelect(|q|, QueueRepository.InSalon(q, salon), QueueRepository.PositionKey(q), cost);
    SalonWaitIsSum(q, bs, salon, position, now, |q|);
  }

  /** One entry's share of the wait: what it still takes when it is ahead, else nothing. */
  method Share(e: QueueEntry, b: Booking, position: int, now: Minutes) returns (share: int)
    ensures share == if IsAhead(e, position) then Remaining(e, b, now) else 0
  {
    share := 0;
    if IsAhead(e, position) {
      if e.status == InService {
        if b.actualStartTime.Some? {
          var elapsed := now - b.actualStartTime.value;
          var left := b.estimatedDurationMinutes - elapsed;
          share := if left > 0 then left else 0;
        }
      } else {
        share := b.estimatedDurationMinutes;
      }
    }
  }

  /** One more id of the walk adds that entry's share of the wait. */
  lemma SumAheadStep(q: seq<QueueEntry>, bs: seq<Booking>, position: int, now: Minutes, ids: seq<nat>, k: nat)
    requires Linked(q, bs) && k < |ids| && ids[k] < |q|
    ensures var e := q[ids[k]];
      Sum(ids[..k + 1], Cost(q, bs, position, now)) ==
        Sum(ids[..k], Cost(q, bs, position, now)) + (if IsAhead(e, position) then Remaining(e, bs[e.booking], now) else 0)
  {
    assert ids[..k + 1] == ids[..k] + [ids[k]];
    SumSnoc(ids[..k], ids[k], Cost(q, bs, position, now));
  }

  lemma {:induction false} SalonWaitNonNegative(q: seq<QueueEntry>, bs: seq<Booking>, salon: SalonId, position: int, now: Minutes, n: nat)
    requires n <= |q| && Linked(q, bs) && DurationsNonNegative(bs)
    ensures SalonWait(q, bs, salon, position, now, n) >= 0
  {
    if n > 0 {
      SalonWaitNonNegative(q, bs, salon, position, now, n - 1);
    }
  }

  /** With non-negative durations no estimated wait is negative. */
  lemma WaitAheadNonNegative(q: seq<QueueEntry>, bs: seq<Booking>, salon: SalonId, position: int, now: Minutes)
    requires Linked(q, bs) && DurationsNonNegative(bs)
    ensures WaitAhead(q, bs, salon, position, now) >= 0
  {
    if position > 1 {
      SalonWaitNonNegative(q, bs, salon, position, now, |q|);
    }
  }

  lemma {:induction false} SalonWaitMonotone(q: seq<QueueEntry>, bs: seq<Booking>, salon: SalonId, p1: int, p2: int, now: Minutes, n: nat)
    requires n <= |q| && Linked(q, bs) && DurationsNonNegative(bs)
    requires p1 <= p2
    ensures SalonWait(q, bs, salon, p1, now, n) <= SalonWait(q, bs, salon, p2, now, n)
  {
    if n > 0 {
      SalonWaitMonotone(q, bs, salon, p1, p2, now, n - 1);
    }
  }

  /** A later place in the queue never has a shorter estimated wait. */
  lemma WaitAheadMonotone(q: seq<QueueEntry>, bs: seq<Booking>, salon: SalonId, p1: int, p2: int, now: Minutes)
    requires Linked(q, bs) && DurationsNonNegative(bs)
    requires p1 <= p2
    ensures WaitAhead(q, bs, salon, p1, now) <= WaitAhead(q, bs, salon, p2, now)
  {
    if p1 > 1 {
      SalonWaitMonotone(q, bs, salon, p1, p2, now, |q|);
    } else if p2 > 1 {
      SalonWaitNonNegative(q, bs, salon, p2, now, |q|);
    }
  }

  lemma {:induction false} SalonWaitShrinksOverTime(q: seq<QueueEntry>, bs: seq<Booking>, salon: SalonId, position: int, t1: Minutes, t2: Minutes, n: nat)
    requires n <= |q| && Linked(q, bs)
    requires t1 <= t2
    ensures SalonWait(q, bs, salon, position, t2, n) <= SalonWait(q, bs, salon, position, t1, n)
  {
    if n > 0 {
      SalonWaitShrinksOverTime(q, bs, salon, position, t1, t2, n - 1);
    }
  }

  /** As time passes with the queue unchanged, the estimated wait never grows. */
  lemma WaitAheadShrinksOverTime(q: seq<QueueEntry>, bs: seq<Booking>, salon: SalonId, position: int, t1: Minutes, t2: Minutes)
    requires Linked(q, bs)
    requires t1 <= t2
    ensures WaitAhead(q, bs, salon, position, t2) <= WaitAhead(q, bs, salon, position, t1)
  {
    if position > 1 {
      SalonWaitShrinksOverTime(q, bs, salon, position, t1, t2, |q|);
    }
  }

  // ----- Renumbering the waiting entries -----

  /** The two tables the queue operations change. */
  datatype Tables = Tables(queue: seq<QueueEntry>, bookings: seq<Booking>)

  /** The wait estimated for entry `e` once it stands at `target`, everything else as in `t`. */
  function StepWait(t: Tables, salon: SalonId, e: nat, target: int, now: Minutes): int
    requires e < |t.queue| && Linked(t.queue, t.bookings)
  {
    WaitAhead(t.queue[e := t.queue[e].(position := target)], t.bookings, salon, target, now)
  }

  /**
   * One turn of the renumbering loop: an entry not already at `target`
   * moves there, gets the wait estimated for that place (on the queue as it
   * now stands), and its booking records the new place and a start time that
   * far from `now`. An entry already at `target` is left alone.
   */
  function RenumberStep(t: Tables, salon: SalonId, e: nat, target: int, now: Minutes): (r: Tables)
    requires e < |t.queue| && Linked(t.queue, t.bookings)
    ensures |r.queue| == |t.queue| && |r.bookings| == |t.bookings|
    ensures Linked(r.queue, r.bookings)
  {
    var entry := t.queue[e];
    if entry.position == target then t
    else
      var w := StepWait(t, salon, e, target, now);
      var b := entry.booking;
      Tables(t.queue[e := entry.(position := target, estimatedWaitMinutes := w)],
             t.bookings[b := t.bookings[b].(queuePosition := Some(target), estimatedStartTime := now + w)])
  }

  /**
   * What one turn changes: the entry's place and wait estimate, and its
   * booking's place and estimated start; nothing else.
   */
  lemma StepEffect(t: Tables, salon: SalonId, e: nat, target: int, now: Minutes)
    requires e < |t.queue| && Linked(t.queue, t.bookings)
    ensures var r := RenumberStep(t, salon, e, target, now);
      r.queue[e].position == target &&
      r.queue[e] == t.queue[e].(position := target, estimatedWaitMinutes := r.queue[e].estimatedWaitMinutes)
    ensures var r := RenumberStep(t, salon, e, target, now);
      forall i :: 0 <= i < |t.queue| && i != e ==> r.queue[i] == t.queue[i]
    ensures var r := RenumberStep(t, salon, e, target, now);
      forall b :: 0 <= b < |t.bookings| && b != t.queue[e].booking ==> r.bookings[b] == t.bookings[b]
    ensures var r := RenumberStep(t, salon, e, target, now);
      var b := t.queue[e].booking;
      r.bookings[b] == t.bookings[b].(queuePosition := r.bookings[b].queuePosition,
                                      estimatedStartTime := r.bookings[b].estimatedStartTime)
    ensures t.queue[e].position == target ==> RenumberStep(t, salon, e, target, now) == t
    ensures var r := RenumberStep(t, salon, e, target, now);
      t.queue[e].position != target ==>
        r.queue[e].estimatedWaitMinutes == StepWait(t, salon, e, target, now) &&
        r.bookings[t.queue[e].booking].queuePosition == Some(target) &&
        r.bookings[t.queue[e].booking].estimatedStartTime == now + r.queue[e].estimatedWaitMinutes
  {
  }

  /** The first `k` turns of the renumbering loop over `ids`; the `j`-th id gets place `j + 1`. */
  function Renumber(t: Tables, salon: SalonId, ids: seq<nat>, k: nat, now: Minutes): (r: Tables)
    requires k <= |ids| && Linked(t.queue, t.bookings)
    requires forall j :: 0 <= j < |ids| ==> ids[j] < |t.queue|
    ensures |r.queue| == |t.queue| && |r.bookings| == |t.bookings|
    ensures Linked(r.queue, r.bookings)
    decreases k
  {
    if k == 0 then t
    else RenumberStep(Renumber(t, salon, ids, k - 1, now), salon, ids[k - 1], k, now)
  }

  /** Renumbering changes only places and wait estimates. */
  lemma {:induction false} RenumberShape(t: Tables, salon: SalonId, ids: seq<nat>, k: nat, now: Minutes)
    requires k <= |ids| && Linked(t.queue, t.bookings)
    requires forall j :: 0 <= j < |ids| ==> ids[j] < |t.queue|
    ensures var r := Renumber(t, salon, ids, k, now);
      forall i :: 0 <= i < |t.queue| ==>
        r.queue[i] == t.queue[i].(position := r.queue[i].position, estimatedWaitMinutes := r.queue[i].estimatedWaitMinutes)
    decreases k
  {
    if k > 0 {
      RenumberShape(t, salon, ids, k - 1, now);
      var r' := Renumber(t, salon, ids, k - 1, now);
      var e := ids[k - 1];
      var r := RenumberStep(r', salon, e, k, now);
      StepEffect(r', salon, e, k, now);
      forall i | 0 <= i < |t.queue|
        ensures r.queue[i] == t.queue[i].(position := r.queue[i].position, estimatedWaitMinutes := r.queue[i].estimatedWaitMinutes)
      {
        if i != e {
          assert r.queue[i] == r'.queue[i];
        }
      }
    }
  }

  /**
   * Entries not in the first `k` ids are untouched, and the `j`-th id ends
   * at place `j + 1`.
   */
  lemma {:induction false} RenumberPlaces(t: Tables, salon: SalonId, ids: seq<nat>, k: nat, now: Minutes)
    requires k <= |ids| && Linked(t.queue, t.bookings)
    requires forall j :: 0 <= j < |ids| ==> ids[j] < |t.queue|
    requires Distinct(ids)
    ensures var r := Renumber(t, salon, ids, k, now);
      forall i :: 0 <= i < |t.queue| && i !in ids[..k] ==> r.queue[i] == t.queue[i]
    ensures var r := Renumber(t, salon, ids, k, now);
      forall j :: 0 <= j < k ==> r.queue[ids[j]].position == j + 1
    decreases k
  {
    if k > 0 {
      RenumberPlaces(t, salon, ids, k - 1, now);
      var r' := Renumber(t, salon, ids, k - 1, now);
      var e := ids[k - 1];
      var r := RenumberStep(r', salon, e, k, now);
      StepEffect(r', salon, e, k, now);
      assert ids[..k] == ids[..k - 1] + [e];
      forall i | 0 <= i < |t.queue| && i !in ids[..k]
        ensures r.queue[i] == t.queue[i]
      {
        assert i !in ids[..k - 1] && i != e;
        assert r.queue[i] == r'.queue[i];
      }
      forall j | 0 <= j < k
        ensures r.queue[ids[j]].position == j + 1
      {
        if j < k - 1 {
          assert ids[j] != e;
          assert r.queue[ids[j]] == r'.queue[ids[j]];
        }
      }
    }
  }

  /** An entry none of the first `k` turns visits is untouched. */
  lemma {:induction false} RenumberUntouched(t: Tables, salon: SalonId, ids: seq<nat>, k: nat, now: Minutes, i: nat)
    requires k <= |ids| && Linked(t.queue, t.bookings)
    requires forall j :: 0 <= j < |ids| ==> ids[j] < |t.queue|
    requires i < |t.queue| && forall j :: 0 <= j < k ==> ids[j] != i
    ensures Renumber(t, salon, ids, k, now).queue[i] == t.queue[i]
    decreases k
  {
    if k > 0 {
      RenumberUntouched(t, salon, ids, k - 1, now, i);
      StepEffect(Renumber(t, salon, ids, k - 1, now), salon, ids[k - 1], k, now);
    }
  }

  /** The `j`-th id of a list without repeats is not among the ids before it. */
  lemma NotEarlier(ids: seq<nat>, j: nat)
    requires j < |ids| && Distinct(ids)
    ensures forall j' :: 0 <= j' < j ==> ids[j'] != ids[j]
  {
  }

  /** An entry already at its place is not touched at all. */
  lemma {:induction false} RenumberSettledAt(t: Tables, salon: SalonId, ids: seq<nat>, k: nat, now: Minutes, j: nat)
    requires k <= |ids| && Linked(t.queue, t.bookings)
    requires forall j :: 0 <= j < |ids| ==> ids[j] < |t.queue|
    requires Distinct(ids)
    requires j < k && t.queue[ids[j]].position == j + 1
    ensures Renumber(t, salon, ids, k, now).queue[ids[j]] == t.queue[ids[j]]
    decreases k
  {
    var r' := Renumber(t, salon, ids, k - 1, now);
    StepEffect(r', salon, ids[k - 1], k, now);
    if j == k - 1 {
      NotEarlier(ids, j);
      RenumberUntouched(t, salon, ids, k - 1, now, ids[j]);
    } else {
      RenumberSettledAt(t, salon, ids, k - 1, now, j);
    }
  }

  /** Entries already at their place are not touched at all. */
  lemma RenumberSettled(t: Tables, salon: SalonId, ids: seq<nat>, k: nat, now: Minutes)
    requires k <= |ids| && Linked(t.queue, t.bookings)
    requires forall j :: 0 <= j < |ids| ==> ids[j] < |t.queue|
    requires Distinct(ids)
    ensures var r := Renumber(t, salon, ids, k, now);
      forall j :: 0 <= j < k && t.queue[ids[j]].position == j + 1 ==> r.queue[ids[j]] == t.queue[ids[j]]
  {
    forall j | 0 <= j < k && t.queue[ids[j]].position == j + 1
      ensures Renumber(t, salon, ids, k, now).queue[ids[j]] == t.queue[ids[j]]
    {
      RenumberSettledAt(t, salon, ids, k, now, j);
    }
  }

  /**
   * An entry that moves gets the wait estimated on the table as it stood at
   * its turn, and its booking's estimated start is that far from `now`.
   */
  lemma {:induction false} RenumberMovedAt(t: Tables, salon: SalonId, ids: seq<nat>, k: nat, now: Minutes, j: nat)
    requires k <= |ids| && Linked(t.queue, t.bookings)
    requires forall j :: 0 <= j < |ids| ==> ids[j] < |t.queue|
    requires Distinct(ids) && OneEntryPerBooking(t.queue)
    requires j < k && t.queue[ids[j]].position != j + 1
    ensures var r := Renumber(t, salon, ids, k, now);
      r.queue[ids[j]].estimatedWaitMinutes == StepWait(Renumber(t, salon, ids, j, now), salon, ids[j], j + 1, now) &&
      r.bookings[t.queue[ids[j]].booking].estimatedStartTime == now + r.queue[ids[j]].estimatedWaitMinutes
    decreases k
  {
    var r := Renumber(t, salon, ids, k, now);
    var r' := Renumber(t, salon, ids, k - 1, now);
    var w := StepWait(Renumber(t, salon, ids, j, now), salon, ids[j], j + 1, now);
    var b := t.queue[ids[j]].booking;
    if j == k - 1 {
      MovedAtTurn(t, salon, ids, k, now);
    } else {
      RenumberMovedAt(t, salon, ids, k - 1, now, j);
      assert r'.queue[ids[j]].estimatedWaitMinutes == w;
      assert r'.bookings[b].estimatedStartTime == now + r'.queue[ids[j]].estimatedWaitMinutes;
      MovedStaysPut(t, salon, ids, k, now, j);
      assert r.queue[ids[j]] == r'.queue[ids[j]] && r.bookings[b] == r'.bookings[b];
    }
  }

  /** The entry of turn `k` that moves gets the wait estimated then. */
  lemma MovedAtTurn(t: Tables, salon: SalonId, ids: seq<nat>, k: nat, now: Minutes)
    requires 0 < k <= |ids| && Linked(t.queue, t.bookings)
    requires forall j :: 0 <= j < |ids| ==> ids[j] < |t.queue|
    requires Distinct(ids)
    requires t.queue[ids[k - 1]].position != k
    ensures var r := Renumber(t, salon, ids, k, now);
      r.queue[ids[k - 1]].estimatedWaitMinutes == StepWait(Renumber(t, salon, ids, k - 1, now), salon, ids[k - 1], k, now) &&
      r.bookings[t.queue[ids[k - 1]].booking].estimatedStartTime == now + r.queue[ids[k - 1]].estimatedWaitMinutes
  {
    var r' := Renumber(t, salon, ids, k - 1, now);
    var e := ids[k - 1];
    NotEarlier(ids, k - 1);
    RenumberUntouched(t, salon, ids, k - 1, now, e);
    StepEffect(r', salon, e, k, now);
  }

  /** A later turn leaves the entry of an earlier turn and its booking alone. */
  lemma MovedStaysPut(t: Tables, salon: SalonId, ids: seq<nat>, k: nat, now: Minutes, j: nat)
    requires 0 < k <= |ids| && Linked(t.queue, t.bookings)
    requires forall j :: 0 <= j < |ids| ==> ids[j] < |t.queue|
    requires Distinct(ids) && OneEntryPerBooking(t.queue)
    requires j < k - 1
    ensures var r := Renumber(t, salon, ids, k, now);
      var r' := Renumber(t, salon, ids, k - 1, now);
      r.queue[ids[j]] == r'.queue[ids[j]] &&
      r.bookings[t.queue[ids[j]].booking] == r'.bookings[t.queue[ids[j]].booking]
  {
    var r' := Renumber(t, salon, ids, k - 1, now);
    var e := ids[k - 1];
    var i := ids[j];
    NotEarlier(ids, k - 1);
    RenumberUntouched(t, salon, ids, k - 1, now, e);
    assert t.queue[i].booking != t.queue[e].booking by {
      if i < e {
        assert t.queue[i].booking != t.queue[e].booking;
      } else {
        assert t.queue[e].booking != t.queue[i].booking;
      }
    }
    StepOther(r', salon, e, k, now, i, t.queue[i].booking);
  }

  /** Pointwise form of what one turn leaves alone. */
  lemma StepOther(t: Tables, salon: SalonId, e: nat, target: int, now: Minutes, i: nat, b: nat)
    requires e < |t.queue| && Linked(t.queue, t.bookings)
    requires i < |t.queue| && i != e
    requires b < |t.bookings| && b != t.queue[e].booking
    ensures var r := RenumberStep(t, salon, e, target, now);
      r.queue[i] == t.queue[i] && r.bookings[b] == t.bookings[b]
  {
    StepEffect(t, salon, e, target, now);
  }

  /** Entries that move get the wait estimated at their turn, and their bookings a start that far from `now`. */
  lemma RenumberMoved(t: Tables, salon: SalonId, ids: seq<nat>, k: nat, now: Minutes)
    requires k <= |ids| && Linked(t.queue, t.bookings)
    requires forall j :: 0 <= j < |ids| ==> ids[j] < |t.queue|
    requires Distinct(ids) && OneEntryPerBooking(t.queue)
    ensures var r := Renumber(t, salon, ids, k, now);
      forall j :: 0 <= j < k && t.queue[ids[j]].position != j + 1 ==>
        r.queue[ids[j]].estimatedWaitMinutes == StepWait(Renumber(t, salon, ids, j, now), salon, ids[j], j + 1, now) &&
        r.bookings[t.queue[ids[j]].booking].estimatedStartTime == now + r.queue[ids[j]].estimatedWaitMinutes
  {
    forall j | 0 <= j < k && t.queue[ids[j]].position != j + 1
      ensures var r := Renumber(t, salon, ids, k, now);
        r.queue[ids[j]].estimatedWaitMinutes == StepWait(Renumber(t, salon, ids, j, now), salon, ids[j], j + 1, now) &&
        r.bookings[t.queue[ids[j]].booking].estimatedStartTime == now + r.queue[ids[j]].estimatedWaitMinutes
    {
      RenumberMovedAt(t, salon, ids, k, now, j);
    }
  }

  /** Renumbering changes only the place and estimated start of bookings. */
  lemma {:induction false} RenumberBookingFields(t: Tables, salon: SalonId, ids: seq<nat>, k: nat, now: Minutes)
    requires k <= |ids| && Linked(t.queue, t.bookings)
    requires forall j :: 0 <= j < |ids| ==> ids[j] < |t.queue|
    ensures var r := Renumber(t, salon, ids, k, now);
      forall b :: 0 <= b < |t.bookings| ==>
        r.bookings[b] == t.bookings[b].(queuePosition := r.bookings[b].queuePosition,
                                        estimatedStartTime := r.bookings[b].estimatedStartTime)
    decreases k
  {
    if k > 0 {
      RenumberBookingFields(t, salon, ids, k - 1, now);
      var r' := Renumber(t, salon, ids, k - 1, now);
      var e := ids[k - 1];
      var r := RenumberStep(r', salon, e, k, now);
      StepEffect(r', salon, e, k, now);
      forall b | 0 <= b < |t.bookings|
        ensures r.bookings[b] == t.bookings[b].(queuePosition := r.bookings[b].queuePosition,
                                                estimatedStartTime := r.bookings[b].estimatedStartTime)
      {
        if b != r'.queue[e].booking {
          assert r.bookings[b] == r'.bookings[b];
        }
      }
    }
  }

  /** Only bookings whose entry is among the first `k` ids are touched. */
  lemma {:induction false} RenumberOtherBookings(t: Tables, salon: SalonId, ids: seq<nat>, k: nat, now: Minutes)
    requires k <= |ids| && Linked(t.queue, t.bookings)
    requires forall j :: 0 <= j < |ids| ==> ids[j] < |t.queue|
    ensures var r := Renumber(t, salon, ids, k, now);
      forall b :: 0 <= b < |t.bookings| && (forall j :: 0 <= j < k ==> t.queue[ids[j]].booking != b) ==>
        r.bookings[b] == t.bookings[b]
    decreases k
  {
    if k > 0 {
      RenumberOtherBookings(t, salon, ids, k - 1, now);
      RenumberShape(t, salon, ids, k - 1, now);
      var r' := Renumber(t, salon, ids, k - 1, now);
      var e := ids[k - 1];
      var r := RenumberStep(r', salon, e, k, now);
      StepEffect(r', salon, e, k, now);
      var be := t.queue[e].booking;
      assert r'.queue[e].booking == be;
      forall b | 0 <= b < |t.bookings| && (forall j :: 0 <= j < k ==> t.queue[ids[j]].booking != b)
        ensures r.bookings[b] == t.bookings[b]
      {
        assert be != b;
        assert r.bookings[b] == r'.bookings[b];
      }
    }
  }

  /**
   * A renumbering turn keeps every waiting entry's place mirrored on its
   * booking and keeps one entry per booking.
   */
  lemma StepKeepsMirror(t: Tables, salon: SalonId, e: nat, target: int, now: Minutes)
    requires e < |t.queue| && Linked(t.queue, t.bookings)
    requires PositionsMirrored(t.queue, t.bookings) && OneEntryPerBooking(t.queue)
    ensures var r := RenumberStep(t, salon, e, target, now);
      PositionsMirrored(r.queue, r.bookings) && OneEntryPerBooking(r.queue)
  {
    var r := RenumberStep(t, salon, e, target, now);
    StepEffect(t, salon, e, target, now);
    forall i, j | 0 <= i < j < |r.queue|
      ensures r.queue[i].booking != r.queue[j].booking
    {
      assert r.queue[i].booking == t.queue[i].booking;
      assert r.queue[j].booking == t.queue[j].booking;
    }
    forall i | 0 <= i < |r.queue| && r.queue[i].status == Waiting && r.queue[i].booking < |r.bookings|
      ensures r.bookings[r.queue[i].booking].queuePosition == Some(r.queue[i].position)
    {
      if i != e && t.queue[e].position != target {
        assert t.queue[i].booking != t.queue[e].booking by {
          if i < e {
            assert t.queue[i].booking != t.queue[e].booking;
          } else {
            assert t.queue[e].booking != t.queue[i].booking;
          }
        }
      }
    }
  }

  /** Renumbering keeps every waiting entry's place mirrored on its booking. */
  lemma {:induction false} RenumberKeepsMirror(t: Tables, salon: SalonId, ids: seq<nat>, k: nat, now: Minutes)
    requires k <= |ids| && Linked(t.queue, t.bookings)
    requires forall j :: 0 <= j < |ids| ==> ids[j] < |t.queue|
    requires PositionsMirrored(t.queue, t.bookings) && OneEntryPerBooking(t.queue)
    ensures var r := Renumber(t, salon, ids, k, now);
      PositionsMirrored(r.queue, r.bookings) && OneEntryPerBooking(r.queue)
    decreases k
  {
    if k > 0 {
      RenumberKeepsMirror(t, salon, ids, k - 1, now);
      var r' := Renumber(t, salon, ids, k - 1, now);
      StepKeepsMirror(r', salon, ids[k - 1], k, now);
    }
  }

  /** Renumbering keeps every invariant of the database. */
  lemma RenumberKeepsConsistent(users: seq<User>, salons: seq<Salon>, services: seq<Service>, barbers: seq<Barber>,
                                t: Tables, salon: SalonId, ids: seq<nat>, k: nat, now: Minutes)
    requires k <= |ids| && Distinct(ids)
    requires forall j :: 0 <= j < |ids| ==> ids[j] < |t.queue|
    requires Consistent(users, salons, services, barbers, t.bookings, t.queue)
    ensures var r := Renumber(t, salon, ids, k, now);
      Consistent(users, salons, services, barbers, r.bookings, r.queue)
  {
    var r := Renumber(t, salon, ids, k, now);
    RenumberShape(t, salon, ids, k, now);
    RenumberBookingFields(t, salon, ids, k, now);
    RenumberKeepsMirror(t, salon, ids, k, now);
    forall b | 0 <= b < |r.bookings|
      ensures BookingRefs(r.bookings[b], |users|, |salons|, |services|, |barbers|)
    {
      assert BookingRefs(t.bookings[b], |users|, |salons|, |services|, |barbers|);
    }
    forall i | 0 <= i < |r.queue| && r.queue[i].booking < |r.bookings|
      ensures r.bookings[r.queue[i].booking].status != Pending
    {
      assert r.queue[i].booking == t.queue[i].booking;
    }
  }

  // ----- What a full reorder does to the salon's waiting entries -----

  /** A waiting entry of `salon`. */
  predicate WaitingIn(e: QueueEntry, salon: SalonId) {
    e.salon == salon && e.status == Waiting
  }

  /** The ids the reorder walks: the salon's waiting entries by ascending position. */
  function WaitingList(q: seq<QueueEntry>, salon: SalonId): (r: seq<nat>)
    ensures forall i: nat :: i in r <==> i < |q| && WaitingIn(q[i], salon)
    ensures forall k :: 0 <= k < |r| ==> r[k] < |q|
    ensures SortedBy(r, QueueRepository.PositionKey(q)) && Distinct(r)
  {
    QueueRepository.BySalonAndStatus(q, salon, Waiting)
  }

  /** A full reorder of `salon`: every id of its waiting list, in order. */
  function Reorder(t: Tables, salon: SalonId, now: Minutes): (r: Tables)
    requires Linked(t.queue, t.bookings)
    ensures |r.queue| == |t.queue| && |r.bookings| == |t.bookings|
    ensures Linked(r.queue, r.bookings)
  {
    var ids := WaitingList(t.queue, salon);
    Renumber(t, salon, ids, |ids|, now)
  }

  lemma IndexIn(s: seq<nat>, x: nat) returns (j: nat)
    requires x in s
    ensures j < |s| && s[j] == x
  {
    j :| 0 <= j < |s| && s[j] == x;
  }

  /** Where a waiting entry of the salon ends up: one past its index in the waiting list. */
  lemma PlaceAfterReorder(t: Tables, salon: SalonId, now: Minutes, i: nat) returns (j: nat)
    requires Linked(t.queue, t.bookings)
    requires i < |t.queue| && WaitingIn(t.queue[i], salon)
    ensures var ids := WaitingList(t.queue, salon);
      j < |ids| && ids[j] == i && Reorder(t, salon, now).queue[i].position == j + 1
  {
    var ids := WaitingList(t.queue, salon);
    RenumberPlaces(t, salon, ids, |ids|, now);
    j := IndexIn(ids, i);
  }

  /**
   * A reorder changes only places and wait estimates of the salon's waiting
   * entries: which entries are waiting in the salon stays the same, and
   * every other entry is untouched.
   */
  lemma ReorderTouchesOnlyWaiting(t: Tables, salon: SalonId, now: Minutes)
    requires Linked(t.queue, t.bookings)
    ensures var r := Reorder(t, salon, now);
      forall i :: 0 <= i < |t.queue| ==> (WaitingIn(r.queue[i], salon) <==> WaitingIn(t.queue[i], salon))
    ensures var r := Reorder(t, salon, now);
      forall i :: 0 <= i < |t.queue| && !WaitingIn(t.queue[i], salon) ==> r.queue[i] == t.queue[i]
  {
    var ids := WaitingList(t.queue, salon);
    RenumberShape(t, salon, ids, |ids|, now);
    RenumberPlaces(t, salon, ids, |ids|, now);
    assert ids[..|ids|] == ids;
  }

  /** After a reorder the salon's waiting entries stand at places 1 to N, N the number waiting. */
  lemma ReorderPlacesFromOne(t: Tables, salon: SalonId, now: Minutes)
    requires Linked(t.queue, t.bookings)
    ensures var r := Reorder(t, salon, now);
      forall i :: 0 <= i < |t.queue| && WaitingIn(t.queue[i], salon) ==>
        1 <= r.queue[i].position <= QueueRepository.CountWaiting(t.queue, salon)
  {
    QueueRepository.CountWaitingIsListLength(t.queue, salon);
    forall i | 0 <= i < |t.queue| && WaitingIn(t.queue[i], salon)
      ensures 1 <= Reorder(t, salon, now).queue[i].position <= |WaitingList(t.queue, salon)|
    {
      var j := PlaceAfterReorder(t, salon, now, i);
    }
  }

  /**
   * After a reorder no two of the salon's waiting entries share a place, and
   * an entry that stood ahead of another still does.
   */
  lemma ReorderKeepsOrder(t: Tables, salon: SalonId, now: Minutes)
    requires Linked(t.queue, t.bookings)
    ensures var r := Reorder(t, salon, now);
      forall i, i' :: (0 <= i < |t.queue| && 0 <= i' < |t.queue| && i != i' &&
                       WaitingIn(t.queue[i], salon) && WaitingIn(t.queue[i'], salon)) ==>
        r.queue[i].position != r.queue[i'].position
    ensures var r := Reorder(t, salon, now);
      forall i, i' :: (0 <= i < |t.queue| && 0 <= i' < |t.queue| &&
                       WaitingIn(t.queue[i], salon) && WaitingIn(t.queue[i'], salon) &&
                       t.queue[i].position < t.queue[i'].position) ==>
        r.queue[i].position < r.queue[i'].position
  {
    var q := t.queue;
    var ids := WaitingList(q, salon);
    var r := Reorder(t, salon, now);
    forall i, i' | 0 <= i < |q| && 0 <= i' < |q| && WaitingIn(q[i], salon) && WaitingIn(q[i'], salon)
      ensures i != i' ==> r.queue[i].position != r.queue[i'].position
      ensures q[i].position < q[i'].position ==> r.queue[i].position < r.queue[i'].position
    {
      var j := PlaceAfterReorder(t, salon, now, i);
      var j' := PlaceAfterReorder(t, salon, now, i');
      if j' < j {
        assert QueueRepository.PositionKey(q)(ids[j']) <= QueueRepository.PositionKey(q)(ids[j]);
      }
    }
  }

  // ----- The live view and the position-change notices -----

  /** The salon's entries that are waiting or being served. */
  function InLiveView(q: seq<QueueEntry>, salon: SalonId): nat -> bool {
    (i: nat) => i < |q| && q[i].salon == salon && (q[i].status == Waiting || q[i].status == InService)
  }

  /** `getSalonQueue`: the salon's waiting and in-service entries by ascending position. */
  function SalonQueue(q: seq<QueueEntry>, salon: SalonId): (r: seq<nat>)
    ensures forall i: nat :: i in r <==> i < |q| && q[i].salon == salon && (q[i].status == Waiting || q[i].status == InService)
    ensures forall k :: 0 <= k < |r| ==> r[k] < |q|
    ensures SortedBy(r, QueueRepository.PositionKey(q)) && Distinct(r)
  {
    var r := Select(|q|, InLiveView(q, salon), QueueRepository.PositionKey(q));
    assert forall k :: 0 <= k < |r| ==> r[k] in r;
    r
  }

  /** What a broadcast carries: the entries of the live view, in its order. */
  function LiveView(q: seq<QueueEntry>, salon: SalonId): (r: seq<QueueEntry>)
    ensures var ids := SalonQueue(q, salon);
      |r| == |ids| && forall k :: 0 <= k < |ids| ==> r[k] == q[ids[k]]
  {
    var ids := SalonQueue(q, salon);
    seq(|ids|, k requires 0 <= k < |ids| => q[ids[k]])
  }

  /** `broadcastQueueUpdate`: pushes the live view to the salon's subscribers. */
  method BroadcastQueueUpdate(st: Store, salon: SalonId)
    modifies st`broadcasts
    ensures st.broadcasts == old(st.broadcasts) + [Broadcast(salon, LiveView(st.queue, salon))]
  {
    st.broadcasts := st.broadcasts + [Broadcast(salon, LiveView(st.queue, salon))];
  }

  /** The test of `notifyQueueChanges`: the booking still records a place at least three further back. */
  predicate MovedUpFar(e: QueueEntry, b: Booking) {
    b.queuePosition.Some? && b.queuePosition.value - e.position >= 3
  }

  /** The position-update notices `notifyQueueChanges` sends for the entries `ids`, in their order. */
  function Updates(q: seq<QueueEntry>, bs: seq<Booking>, ids: seq<nat>): seq<Option<Notification>>
    requires Linked(q, bs)
    requires forall k :: 0 <= k < |ids| ==> ids[k] < |q|
  {
    if ids == [] then []
    else
      var e := q[ids[|ids| - 1]];
      Updates(q, bs, ids[..|ids| - 1]) +
        (if MovedUpFar(e, bs[e.booking]) then [Some(NotificationService.About(bs, e.booking, QueueUpdate))] else [])
  }

  lemma UpdatesStep(q: seq<QueueEntry>, bs: seq<Booking>, ids: seq<nat>, k: nat)
    requires Linked(q, bs) && k < |ids|
    requires forall k :: 0 <= k < |ids| ==> ids[k] < |q|
    ensures var e := q[ids[k]];
      Updates(q, bs, ids[..k + 1]) == Updates(q, bs, ids[..k]) +
        (if MovedUpFar(e, bs[e.booking]) then [Some(NotificationService.About(bs, e.booking, QueueUpdate))] else [])
  {
    assert ids[..k + 1][..k] == ids[..k];
  }

  /**
   * While every waiting entry's place is mirrored on its booking, no waiting
   * entry can have moved up, so no notice is ever sent.
   */
  lemma {:induction false} NoUpdatesWhenMirrored(q: seq<QueueEntry>, bs: seq<Booking>, ids: seq<nat>)
    requires Linked(q, bs) && PositionsMirrored(q, bs)
    requires forall k :: 0 <= k < |ids| ==> ids[k] < |q| && q[ids[k]].status == Waiting
    ensures Updates(q, bs, ids) == []
  {
    if ids != [] {
      NoUpdatesWhenMirrored(q, bs, ids[..|ids| - 1]);
    }
  }

  /** `notifyQueueChanges`: a notice for each waiting entry of the salon that moved up three places or more. */
  method NotifyQueueChanges(st: Store, salon: SalonId)
    requires Linked(st.queue, st.bookings)
    modifies st`notifications
    ensures st.notifications == old(st.notifications) + Updates(st.queue, st.bookings, WaitingList(st.queue, salon))
  {
    var ids := QueueRepository.BySalonAndStatus(st.queue, salon, Waiting);
    SendUpdates(st, ids);
  }

  /** The loop of `notifyQueueChanges` over the entries `ids`. */
  method SendUpdates(st: Store, ids: seq<nat>)
    requires Linked(st.queue, st.bookings)
    requires forall k :: 0 <= k < |ids| ==> ids[k] < |st.queue|
    modifies st`notifications
    ensures st.notifications == old(st.notifications) + Updates(st.queue, st.bookings, ids)
  {
    var q, bs := st.queue, st.bookings;
    var k := 0;
    while k < |ids|
      invariant 0 <= k <= |ids|
      invariant st.notifications == old(st.notifications) + Updates(q, bs, ids[..k])
    {
      var e := q[ids[k]];
      UpdatesStep(q, bs, ids, k);
      if MovedUpFar(e, bs[e.booking]) {
        NotificationService.Send(st, e.booking, QueueUpdate);
      }
      k := k + 1;
    }
    assert ids[..k] == ids;
  }

  // ----- The queue operations -----

  /** A reorder keeps the database consistent, and then no position-change notice is due. */
  lemma ReorderKeepsConsistent(users: seq<User>, salons: seq<Salon>, services: seq<Service>, barbers: seq<Barber>,
                               t: Tables, salon: SalonId, now: Minutes)
    requires Consistent(users, salons, services, barbers, t.bookings, t.queue)
    ensures Linked(t.queue, t.bookings)
    ensures var r := Reorder(t, salon, now);
      Consistent(users, salons, services, barbers, r.bookings, r.queue) &&
      Updates(r.queue, r.bookings, WaitingList(r.queue, salon)) == []
  {
    var ids := WaitingList(t.queue, salon);
    RenumberKeepsConsistent(users, salons, services, barbers, t, salon, ids, |ids|, now);
    var r := Reorder(t, salon, now);
    var w := WaitingList(r.queue, salon);
    assert forall k :: 0 <= k < |w| ==> w[k] in w;
    NoUpdatesWhenMirrored(r.queue, r.bookings, w);
  }

  /** The loop of `reorderQueue`: entry `ids[k]` is moved to place `k + 1` unless it is there already. */
  method RenumberLoop(st: Store, salon: SalonId, ids: seq<nat>, now: Minutes)
    requires Linked(st.queue, st.bookings)
    requires forall j :: 0 <= j < |ids| ==> ids[j] < |st.queue|
    modifies st`queue, st`bookings
    ensures Tables(st.queue, st.bookings) == Renumber(Tables(old(st.queue), old(st.bookings)), salon, ids, |ids|, now)
  {
    ghost var t0 := Tables(st.queue, st.bookings);
    var k := 0;
    while k < |ids|
      invariant 0 <= k <= |ids|
      invariant Tables(st.queue, st.bookings) == Renumber(t0, salon, ids, k, now)
    {
      RenumberEntry(st, salon, ids[k], k + 1, now);
      k := k + 1;
    }
  }

  /** One turn of the renumbering loop: entry `e` moves to `position` unless it is there. */
  method RenumberEntry(st: Store, salon: SalonId, e: nat, position: int, now: Minutes)
    requires e < |st.queue| && Linked(st.queue, st.bookings)
    modifies st`queue, st`bookings
    ensures Tables(st.queue, st.bookings) == RenumberStep(Tables(old(st.queue), old(st.bookings)), salon, e, position, now)
  {
    var entry := st.queue[e];
    if entry.position != position {
      st.queue := st.queue[e := entry.(position := position)];
      var wait := CalculateEstimatedWait(st.queue, st.bookings, salon, position, now);
      st.queue := st.queue[e := st.queue[e].(estimatedWaitMinutes := wait)];
      var b := entry.booking;
      st.bookings := st.bookings[b := st.bookings[b].(queuePosition := Some(position), estimatedStartTime := now + wait)];
    }
  }

  /**
   * `reorderQueue`: renumbers the salon's waiting entries 1, 2, … in
   * position order, broadcasts the queue and sends the position-change
   * notices, of which there are none.
   */
  method ReorderQueue(st: Store, salon: SalonId, now: Minutes)
    requires st.Valid()
    modifies st`queue, st`bookings, st`broadcasts, st`notifications
    ensures st.Valid()
    ensures Tables(st.queue, st.bookings) == Reorder(Tables(old(st.queue), old(st.bookings)), salon, now)
    ensures st.broadcasts == old(st.broadcasts) + [Broadcast(salon, LiveView(st.queue, salon))]
    ensures st.notifications == old(st.notifications)
  {
    RenumberWaiting(st, salon, now);
    Announce(st, salon);
  }

  /** The broadcast and the notices that close `reorderQueue`, when no notice is due. */
  method Announce(st: Store, salon: SalonId)
    requires Linked(st.queue, st.bookings)
    requires Updates(st.queue, st.bookings, WaitingList(st.queue, salon)) == []
    modifies st`broadcasts, st`notifications
    ensures st.broadcasts == old(st.broadcasts) + [Broadcast(salon, LiveView(st.queue, salon))]
    ensures st.notifications == old(st.notifications)
  {
    BroadcastQueueUpdate(st, salon);
    NotifyQueueChanges(st, salon);
  }

  /** The renumbering part of `reorderQueue`, after which no position-change notice is due. */
  method RenumberWaiting(st: Store, salon: SalonId, now: Minutes)
    requires st.Valid()
    modifies st`queue, st`bookings
    ensures st.Valid()
    ensures Tables(st.queue, st.bookings) == Reorder(Tables(old(st.queue), old(st.bookings)), salon, now)
    ensures Updates(st.queue, st.bookings, WaitingList(st.queue, salon)) == []
  {
    ghost var t0 := Tables(st.queue, st.bookings);
    ReorderKeepsConsistent(st.users, st.salons, st.services, st.barbers, t0, salon, now);
    var ids := QueueRepository.BySalonAndStatus(st.queue, salon, Waiting);
    RenumberLoop(st, salon, ids, now);
  }

  /** The place `findMaxPositionBySalon` makes the tail: one past the largest place any entry of the salon has. */
  function TailPosition(q: seq<QueueEntry>, salon: SalonId): (p: int)
    ensures forall i :: 0 <= i < |q| && q[i].salon == salon ==> q[i].position < p
    ensures (forall i :: 0 <= i < |q| ==> q[i].salon != salon) ==> p == 1
    ensures (exists i :: 0 <= i < |q| && q[i].salon == salon) ==>
      exists i :: 0 <= i < |q| && q[i].salon == salon && q[i].position == p - 1
  {
    QueueRepository.MaxPosition(q, salon).GetOr(0) + 1
  }

  /** Adding a waiting entry for a booking that had none, mirrored on the booking, keeps the database consistent. */
  lemma AppendKeepsConsistent(users: seq<User>, salons: seq<Salon>, services: seq<Service>, barbers: seq<Barber>,
                              bs: seq<Booking>, q: seq<QueueEntry>, e: QueueEntry)
    requires Consistent(users, salons, services, barbers, bs, q)
    requires e.booking < |bs| && bs[e.booking].status != Pending && e.status == Waiting
    requires forall i :: 0 <= i < |q| ==> q[i].booking != e.booking
    ensures Consistent(users, salons, services, barbers, bs[e.booking := bs[e.booking].(queuePosition := Some(e.position))], q + [e])
  {
    var bs' := bs[e.booking := bs[e.booking].(queuePosition := Some(e.position))];
    var q' := q + [e];
    forall i | 0 <= i < |q'| && q'[i].status == Waiting && q'[i].booking < |bs'|
      ensures bs'[q'[i].booking].queuePosition == Some(q'[i].position)
    {
      if i < |q| {
        assert q'[i] == q[i];
      }
    }
    forall i, j | 0 <= i < j < |q'|
      ensures q'[i].booking != q'[j].booking
    {
      if j < |q| {
        assert q'[i] == q[i] && q'[j] == q[j];
      } else {
        assert q'[i] == q[i];
      }
    }
    forall b | 0 <= b < |bs'|
      ensures BookingRefs(bs'[b], |users|, |salons|, |services|, |barbers|)
    {
      assert BookingRefs(bs[b], |users|, |salons|, |services|, |barbers|);
    }
  }

  /** The entry `addToQueue` builds for a booking. */
  function NewEntry(users: seq<User>, services: seq<Service>, bs: seq<Booking>, booking: BookingId,
                    position: int, wait: int, now: Minutes): QueueEntry
    requires booking < |bs| && bs[booking].customer < |users| && bs[booking].service < |services|
  {
    var b := bs[booking];
    QueueEntry(b.salon, b.barber, booking, users[b.customer].fullName, services[b.service].name, position, wait, Waiting, now)
  }

  /**
   * `addToQueue`: a waiting entry at the salon's tail, with the wait
   * estimated for that place; the booking records the place; the queue is
   * broadcast. Its callers queue only bookings that are past the pending
   * stage and have no entry yet.
   */
  method AddToQueue(st: Store, booking: BookingId, now: Minutes) returns (entry: QueueId)
    requires st.Valid() && booking < |st.bookings|
    requires QueueRepository.FindByBookingId(st.queue, booking).None?
    requires st.bookings[booking].status != Pending
    modifies st`queue, st`bookings, st`broadcasts
    ensures st.Valid()
    ensures entry == |old(st.queue)| && entry < |st.queue|
    ensures var salon := old(st.bookings)[booking].salon;
      var position := TailPosition(old(st.queue), salon);
      st.queue == old(st.queue) +
        [NewEntry(st.users, st.services, old(st.bookings), booking, position,
                  WaitAhead(old(st.queue), old(st.bookings), salon, position, now), now)] &&
      st.bookings == old(st.bookings)[booking := old(st.bookings)[booking].(queuePosition := Some(position))]
    ensures forall i :: 0 <= i < |old(st.queue)| && old(st.queue)[i].salon == st.queue[entry].salon ==>
      old(st.queue)[i].position < st.queue[entry].position
    ensures st.broadcasts == old(st.broadcasts) + [Broadcast(st.queue[entry].salon, LiveView(st.queue, st.queue[entry].salon))]
  {
    var b := st.bookings[booking];
    var salon := b.salon;
    assert BookingRefs(b, |st.users|, |st.salons|, |st.services|, |st.barbers|);
    var maxPosition := QueueRepository.MaxPosition(st.queue, salon).GetOr(0);
    var position := maxPosition + 1;
    var wait := CalculateEstimatedWait(st.queue, st.bookings, salon, position, now);
    var e := QueueEntry(salon, b.barber, booking, st.users[b.customer].fullName, st.services[b.service].name,
                        position, wait, Waiting, now);
    AppendKeepsConsistent(st.users, st.salons, st.services, st.barbers, st.bookings, st.queue, e);
    entry := |st.queue|;
    st.queue := st.queue + [e];
    st.bookings := st.bookings[booking := b.(queuePosition := Some(position))];
    assert st.Valid();
    BroadcastQueueUpdate(st, salon);
  }

  /** Changing an entry's status to anything but waiting keeps the database consistent. */
  lemma LeaveWaitingKeepsConsistent(users: seq<User>, salons: seq<Salon>, services: seq<Service>, barbers: seq<Barber>,
                                    bs: seq<Booking>, q: seq<QueueEntry>, e: nat, status: QueueStatus)
    requires Consistent(users, salons, services, barbers, bs, q)
    requires e < |q| && status != Waiting
    ensures Consistent(users, salons, services, barbers, bs, q[e := q[e].(status := status)])
  {
    var q' := q[e := q[e].(status := status)];
    forall i, j | 0 <= i < j < |q'|
      ensures q'[i].booking != q'[j].booking
    {
      assert q'[i].booking == q[i].booking && q'[j].booking == q[j].booking;
    }
  }

  /**
   * `markInService`: the booking's entry becomes in service, keeping its
   * place, and the queue is broadcast; a booking without an entry fails.
   */
  method MarkInService(st: Store, booking: BookingId) returns (out: Outcome<Failure>)
    requires st.Valid()
    modifies st`queue, st`broadcasts
    ensures st.Valid()
    ensures match QueueRepository.FindByBookingId(old(st.queue), booking)
      case None =>
        out == Fail(NotQueued) && st.queue == old(st.queue) && st.broadcasts == old(st.broadcasts)
      case Some(e) =>
        var salon := old(st.queue)[e].salon;
        out == Pass && st.queue == old(st.queue)[e := old(st.queue)[e].(status := InService)] &&
        st.broadcasts == old(st.broadcasts) + [Broadcast(salon, LiveView(st.queue, salon))]
  {
    var found := QueueRepository.FindByBookingId(st.queue, booking);
    if found.None? {
      return Fail(NotQueued);
    }
    var e := found.value;
    LeaveWaitingKeepsConsistent(st.users, st.salons, st.services, st.barbers, st.bookings, st.queue, e, InService);
    st.queue := st.queue[e := st.queue[e].(status := InService)];
    BroadcastQueueUpdate(st, st.queue[e].salon);
    out := Pass;
  }

  /**
   * `removeFromQueue`: the booking's entry is marked served (the source's
   * COMPLETED) and the salon's queue reordered; a booking without an entry
   * is ignored.
   */
  method RemoveFromQueue(st: Store, booking: BookingId, now: Minutes)
    requires st.Valid()
    modifies st`queue, st`bookings, st`broadcasts, st`notifications
    ensures st.Valid()
    ensures st.notifications == old(st.notifications)
    ensures match QueueRepository.FindByBookingId(old(st.queue), booking)
      case None =>
        st.queue == old(st.queue) && st.bookings == old(st.bookings) && st.broadcasts == old(st.broadcasts)
      case Some(e) =>
        var salon := old(st.queue)[e].salon;
        var served := old(st.queue)[e := old(st.queue)[e].(status := Served)];
        Tables(st.queue, st.bookings) == Reorder(Tables(served, old(st.bookings)), salon, now) &&
        st.broadcasts == old(st.broadcasts) + [Broadcast(salon, LiveView(st.queue, salon))]
  {
    var found := QueueRepository.FindByBookingId(st.queue, booking);
    if found.Some? {
      var e := found.value;
      var salon := st.queue[e].salon;
      LeaveWaitingKeepsConsistent(st.users, st.salons, st.services, st.barbers, st.bookings, st.queue, e, Served);
      st.queue := st.queue[e := st.queue[e].(status := Served)];
      ReorderQueue(st, salon, now);
    }
  }

  /** After a removal the salon's remaining waiting entries stand at places 1 to N, the removed one no longer waiting. */
  lemma RemovalClosesGap(t: Tables, e: nat, now: Minutes)
    requires Linked(t.queue, t.bookings) && e < |t.queue|
    ensures var salon := t.queue[e].salon;
      var served := Tables(t.queue[e := t.queue[e].(status := Served)], t.bookings);
      var r := Reorder(served, salon, now);
      r.queue[e].status == Served &&
      forall i :: 0 <= i < |r.queue| && WaitingIn(r.queue[i], salon) ==>
        1 <= r.queue[i].position <= QueueRepository.CountWaiting(served.queue, salon)
  {
    var salon := t.queue[e].salon;
    var served := Tables(t.queue[e := t.queue[e].(status := Served)], t.bookings);
    ReorderTouchesOnlyWaiting(served, salon, now);
    ReorderPlacesFromOne(served, salon, now);
  }

  // ----- Late arrivals -----

  /**
   * The second half of `handleLateArrival`: entry `e` back to waiting, one
   * past the largest place in its salon, with the wait estimated there; its
   * booking records that place and a start that far from `now`.
   */
  function RequeueAtTail(t: Tables, e: nat, now: Minutes): (r: Tables)
    requires e < |t.queue| && Linked(t.queue, t.bookings)
    ensures |r.queue| == |t.queue| && |r.bookings| == |t.bookings|
    ensures Linked(r.queue, r.bookings)
  {
    var salon := t.queue[e].salon;
    var tail := TailPosition(t.queue, salon);
    var q := t.queue[e := t.queue[e].(position := tail, status := Waiting)];
    var w := WaitAhead(q, t.bookings, salon, tail, now);
    var b := t.queue[e].booking;
    Tables(q[e := q[e].(estimatedWaitMinutes := w)],
           t.bookings[b := t.bookings[b].(queuePosition := Some(tail), estimatedStartTime := now + w)])
  }

  /** Putting an entry back at the tail keeps the database consistent. */
  lemma RequeueKeepsConsistent(users: seq<User>, salons: seq<Salon>, services: seq<Service>, barbers: seq<Barber>,
                               t: Tables, e: nat, now: Minutes)
    requires Consistent(users, salons, services, barbers, t.bookings, t.queue) && e < |t.queue|
    ensures Linked(t.queue, t.bookings)
    ensures var r := RequeueAtTail(t, e, now);
      Consistent(users, salons, services, barbers, r.bookings, r.queue)
  {
    var r := RequeueAtTail(t, e, now);
    var b := t.queue[e].booking;
    forall i, j | 0 <= i < j < |r.queue|
      ensures r.queue[i].booking != r.queue[j].booking
    {
      assert r.queue[i].booking == t.queue[i].booking && r.queue[j].booking == t.queue[j].booking;
    }
    forall i | 0 <= i < |r.queue| && r.queue[i].status == Waiting && r.queue[i].booking < |r.bookings|
      ensures r.bookings[r.queue[i].booking].queuePosition == Some(r.queue[i].position)
    {
      if i != e {
        assert r.queue[i] == t.queue[i];
        assert t.queue[i].booking != b by {
          if i < e {
            assert t.queue[i].booking != t.queue[e].booking;
          } else {
            assert t.queue[e].booking != t.queue[i].booking;
          }
        }
      }
    }
    forall c | 0 <= c < |r.bookings|
      ensures BookingRefs(r.bookings[c], |users|, |salons|, |services|, |barbers|)
    {
      assert BookingRefs(t.bookings[c], |users|, |salons|, |services|, |barbers|);
    }
    forall i | 0 <= i < |r.queue| && r.queue[i].booking < |r.bookings|
      ensures r.bookings[r.queue[i].booking].status != Pending
    {
      assert r.queue[i].booking == t.queue[i].booking;
    }
  }

  /**
   * A late arrival ends up waiting behind every other entry of its salon,
   * whatever their status, with its place mirrored on its booking.
   */
  lemma LateArrivalGoesLast(t: Tables, e: nat, now: Minutes)
    requires Linked(t.queue, t.bookings) && e < |t.queue|
    ensures var salon := t.queue[e].salon;
      var skipped := Tables(t.queue[e := t.queue[e].(status := Skipped)], t.bookings);
      var r := RequeueAtTail(Reorder(skipped, salon, now), e, now);
      r.queue[e].status == Waiting && r.queue[e].salon == salon &&
      r.bookings[r.queue[e].booking].queuePosition == Some(r.queue[e].position) &&
      forall i :: 0 <= i < |r.queue| && i != e && r.queue[i].salon == salon ==> r.queue[i].position < r.queue[e].position
  {
    var salon := t.queue[e].salon;
    var skipped := Tables(t.queue[e := t.queue[e].(status := Skipped)], t.bookings);
    var m := Reorder(skipped, salon, now);
    ReorderTouchesOnlyWaiting(skipped, salon, now);
    assert m.queue[e] == skipped.queue[e];
    var r := RequeueAtTail(m, e, now);
    forall i | 0 <= i < |r.queue| && i != e && r.queue[i].salon == salon
      ensures r.queue[i].position < r.queue[e].position
    {
      assert r.queue[i] == m.queue[i];
    }
  }

  /**
   * `handleLateArrival`: the entry is skipped, the salon's queue reordered
   * (the others move up), and the entry put back at the tail; the customer
   * is told and the queue broadcast. A booking without an entry fails.
   */
  method HandleLateArrival(st: Store, booking: BookingId, now: Minutes) returns (out: Outcome<Failure>)
    requires st.Valid()
    modifies st`queue, st`bookings, st`broadcasts, st`notifications
    ensures st.Valid()
    ensures match QueueRepository.FindByBookingId(old(st.queue), booking)
      case None =>
        out == Fail(NotQueued) && st.queue == old(st.queue) && st.bookings == old(st.bookings) &&
        st.broadcasts == old(st.broadcasts) && st.notifications == old(st.notifications)
      case Some(e) =>
        out == Pass && LateArrivalDone(old(st.queue), old(st.bookings), old(st.broadcasts), old(st.notifications),
                                       st.queue, st.bookings, st.broadcasts, st.notifications, e, now)
  {
    var found := QueueRepository.FindByBookingId(st.queue, booking);
    if found.None? {
      return Fail(NotQueued);
    }
    MoveToEnd(st, found.value, now);
    out := Pass;
  }

  /**
   * What `handleLateArrival` leaves behind for entry `e`: the tables as the
   * skip, the reorder and the requeue make them; one late-arrival notice for
   * the entry's booking; the queue broadcast after the reorder and again at
   * the end.
   */
  ghost predicate LateArrivalDone(q: seq<QueueEntry>, bs: seq<Booking>, casts: seq<Broadcast>, ns: seq<Option<Notification>>,
                                  q': seq<QueueEntry>, bs': seq<Booking>, casts': seq<Broadcast>, ns': seq<Option<Notification>>,
                                  e: nat, now: Minutes)
    requires e < |q| && Linked(q, bs)
  {
    var salon := q[e].salon;
    var reordered := Reorder(Tables(q[e := q[e].(status := Skipped)], bs), salon, now);
    Tables(q', bs') == RequeueAtTail(reordered, e, now) &&
    ns' == ns + [Some(NotificationService.About(bs', q[e].booking, LateArrival))] &&
    casts' == casts + [Broadcast(salon, LiveView(reordered.queue, salon))] + [Broadcast(salon, LiveView(q', salon))]
  }

  /** `handleLateArrival` for the booking whose entry is `e`. */
  method MoveToEnd(st: Store, e: QueueId, now: Minutes)
    requires st.Valid() && e < |st.queue|
    modifies st`queue, st`bookings, st`broadcasts, st`notifications
    ensures st.Valid()
    ensures Linked(old(st.queue), old(st.bookings))
    ensures LateArrivalDone(old(st.queue), old(st.bookings), old(st.broadcasts), old(st.notifications),
                            st.queue, st.bookings, st.broadcasts, st.notifications, e, now)
  {
    SkipAndReorder(st, e, now);
    RequeueAndTell(st, e, now);
  }

  /** The last steps of `handleLateArrival`: entry `e` back at the tail, its customer told, the queue broadcast. */
  method RequeueAndTell(st: Store, e: QueueId, now: Minutes)
    requires st.Valid() && e < |st.queue|
    modifies st`queue, st`bookings, st`broadcasts, st`notifications
    ensures st.Valid()
    ensures Linked(old(st.queue), old(st.bookings))
    ensures Tables(st.queue, st.bookings) == RequeueAtTail(Tables(old(st.queue), old(st.bookings)), e, now)
    ensures st.notifications == old(st.notifications) + [Some(NotificationService.About(st.bookings, old(st.queue)[e].booking, LateArrival))]
    ensures st.broadcasts == old(st.broadcasts) + [Broadcast(old(st.queue)[e].salon, LiveView(st.queue, old(st.queue)[e].salon))]
  {
    var salon := st.queue[e].salon;
    var booking := st.queue[e].booking;
    RequeueLast(st, e, now);
    // `sendMovedToEndOfQueue`, then `broadcastQueueUpdate`
    st.notifications := st.notifications + [Some(NotificationService.About(st.bookings, booking, LateArrival))];
    st.broadcasts := st.broadcasts + [Broadcast(salon, LiveView(st.queue, salon))];
  }

  /** The first steps of `handleLateArrival`: entry `e` skipped, then its salon's queue reordered. */
  method SkipAndReorder(st: Store, e: QueueId, now: Minutes)
    requires st.Valid() && e < |st.queue|
    modifies st`queue, st`bookings, st`broadcasts, st`notifications
    ensures st.Valid()
    ensures var salon := old(st.queue)[e].salon;
      Tables(st.queue, st.bookings) ==
        Reorder(Tables(old(st.queue)[e := old(st.queue)[e].(status := Skipped)], old(st.bookings)), salon, now) &&
      st.broadcasts == old(st.broadcasts) + [Broadcast(salon, LiveView(st.queue, salon))]
    ensures st.notifications == old(st.notifications)
    ensures st.queue[e] == old(st.queue)[e].(status := Skipped)
  {
    var salon := st.queue[e].salon;
    LeaveWaitingKeepsConsistent(st.users, st.salons, st.services, st.barbers, st.bookings, st.queue, e, Skipped);
    st.queue := st.queue[e := st.queue[e].(status := Skipped)];
    ReorderTouchesOnlyWaiting(Tables(st.queue, st.bookings), salon, now);
    ReorderQueue(st, salon, now);
  }

  /** The steps of `handleLateArrival` after the reorder: entry `e` back at the tail of its salon. */
  method RequeueLast(st: Store, e: QueueId, now: Minutes)
    requires st.Valid() && e < |st.queue|
    modifies st`queue, st`bookings
    ensures st.Valid()
    ensures Tables(st.queue, st.bookings) == RequeueAtTail(Tables(old(st.queue), old(st.bookings)), e, now)
  {
    ghost var t1 := Tables(st.queue, st.bookings);
    RequeueKeepsConsistent(st.users, st.salons, st.services, st.barbers, t1, e, now);
    var salon := st.queue[e].salon;
    var maxPosition := QueueRepository.MaxPosition(st.queue, salon).GetOr(0);
    var tail := maxPosition + 1;
    st.queue := st.queue[e := st.queue[e].(position := tail, status := Waiting)];
    var wait := CalculateEstimatedWait(st.queue, st.bookings, salon, tail, now);
    st.queue := st.queue[e := st.queue[e].(estimatedWaitMinutes := wait)];
    var b := st.queue[e].booking;
    st.bookings := st.bookings[b := st.bookings[b].(queuePosition := Some(tail), estimatedStartTime := now + wait)];
    assert Tables(st.queue, st.bookings) == RequeueAtTail(t1, e, now);
  }

  // ----- Telling the next customers -----

  /**
   * The notices `notifyNextInQueue` sends for the waiting list `w`: "your
   * turn is next" to its head if that stands at place 1, and "get ready" to
   * the second, if there is one.
   */
  function Notices(q: seq<QueueEntry>, bs: seq<Booking>, w: seq<nat>): seq<Option<Notification>>
    requires Linked(q, bs) && forall k :: 0 <= k < |w| ==> w[k] < |q|
  {
    (if |w| > 0 && q[w[0]].position == 1 then [Some(NotificationService.About(bs, q[w[0]].booking, TurnNext))] else []) +
    (if |w| > 1 then [Some(NotificationService.About(bs, q[w[1]].booking, GetReady))] else [])
  }

  /** The notices for the salon's waiting list. */
  function NextNotices(q: seq<QueueEntry>, bs: seq<Booking>, salon: SalonId): seq<Option<Notification>>
    requires Linked(q, bs)
  {
    Notices(q, bs, WaitingList(q, salon))
  }

  /** `notifyNextInQueue`. */
  method NotifyNextInQueue(st: Store, salon: SalonId)
    requires Linked(st.queue, st.bookings)
    modifies st`notifications
    ensures st.notifications == old(st.notifications) + NextNotices(st.queue, st.bookings, salon)
  {
    var waiting := QueueRepository.BySalonAndStatus(st.queue, salon, Waiting);
    TellNext(st, waiting);
  }

  /** The sends of `notifyNextInQueue` for the waiting list `w`. */
  method TellNext(st: Store, w: seq<nat>)
    requires Linked(st.queue, st.bookings) && forall k :: 0 <= k < |w| ==> w[k] < |st.queue|
    modifies st`notifications
    ensures st.notifications == old(st.notifications) + Notices(st.queue, st.bookings, w)
  {
    var q := st.queue;
    if |w| > 0 {
      var next := q[w[0]];
      if next.position == 1 {
        NotificationService.Send(st, next.booking, TurnNext);
      }
      if |w| > 1 {
        NotificationService.Send(st, q[w[1]].booking, GetReady);
      }
    }
  }

  /**
   * At most two notices go out: none while nobody waits, and with two or
   * more on the waiting list the last one tells the second in line to get
   * ready.
   */
  lemma NoticesFollowCount(q: seq<QueueEntry>, bs: seq<Booking>, salon: SalonId)
    requires Linked(q, bs)
    ensures var n := NextNotices(q, bs, salon);
      |n| <= 2 &&
      (QueueRepository.CountWaiting(q, salon) == 0 ==> n == []) &&
      (|WaitingList(q, salon)| >= 2 ==>
        |n| >= 1 && n[|n| - 1] == Some(NotificationService.About(bs, q[WaitingList(q, salon)[1]].booking, GetReady)))
  {
    QueueRepository.CountWaitingIsListLength(q, salon);
  }

  /** The waiting entries a reorder leaves are the ones it found, so there are as many. */
  lemma ReorderKeepsCount(t: Tables, salon: SalonId, now: Minutes)
    requires Linked(t.queue, t.bookings)
    ensures QueueRepository.CountWaiting(Reorder(t, salon, now).queue, salon) == QueueRepository.CountWaiting(t.queue, salon)
  {
    var r := Reorder(t, salon, now);
    ReorderTouchesOnlyWaiting(t, salon, now);
    CountAgrees(|t.queue|, (i: nat) => i < |r.queue| && r.queue[i].salon == salon && r.queue[i].status == Waiting,
                           (i: nat) => i < |t.queue| && t.queue[i].salon == salon && t.queue[i].status == Waiting);
  }

  /**
   * Right after a reorder the head of the waiting list stands at place 1:
   * it is the entry that was first before, and it is told its turn is next;
   * with two or more waiting the second is told to get ready.
   */
  lemma ReorderedHeadIsTold(t: Tables, salon: SalonId, now: Minutes)
    requires Linked(t.queue, t.bookings) && QueueRepository.CountWaiting(t.queue, salon) > 0
    ensures var r := Reorder(t, salon, now);
      var n := NextNotices(r.queue, r.bookings, salon);
      |n| == (if QueueRepository.CountWaiting(t.queue, salon) >= 2 then 2 else 1) &&
      n[0] == Some(NotificationService.About(r.bookings, t.queue[WaitingList(t.queue, salon)[0]].booking, TurnNext))
  {
    ReorderedHead(t, salon, now);
    QueueRepository.CountWaitingIsListLength(t.queue, salon);
  }

  /** After reordering, the waiting list is as long as before and starts with the same entry, now at place 1. */
  lemma ReorderedHead(t: Tables, salon: SalonId, now: Minutes)
    requires Linked(t.queue, t.bookings) && |WaitingList(t.queue, salon)| > 0
    ensures var r := Reorder(t, salon, now);
      var w := WaitingList(r.queue, salon);
      var first := WaitingList(t.queue, salon)[0];
      |w| == |WaitingList(t.queue, salon)| && w[0] == first &&
      r.queue[first].position == 1 && r.queue[first].booking == t.queue[first].booking
  {
    var ids := WaitingList(t.queue, salon);
    var r := Reorder(t, salon, now);
    var w := WaitingList(r.queue, salon);
    QueueRepository.CountWaitingIsListLength(t.queue, salon);
    QueueRepository.CountWaitingIsListLength(r.queue, salon);
    ReorderKeepsCount(t, salon, now);
    ReorderTouchesOnlyWaiting(t, salon, now);
    ReorderPlacesFromOne(t, salon, now);
    ReorderKeepsOrder(t, salon, now);
    RenumberShape(t, salon, ids, |ids|, now);
    var first := ids[0];
    var j := PlaceAfterReorder(t, salon, now, first);
    assert j == 0;
    assert first in w;
    var k := IndexIn(w, first);
    assert r.queue[w[0]].position <= r.queue[first].position by {
      if k > 0 {
        assert QueueRepository.PositionKey(r.queue)(w[0]) <= QueueRepository.PositionKey(r.queue)(w[k]);
      }
    }
    assert w[0] in w;
    assert w[0] == first;
  }

  // ----- Queries -----

  /** `getCustomerQueueStatus`: the booking's queue entry; a booking without one fails. */
  function CustomerQueueStatus(q: seq<QueueEntry>, booking: BookingId): (r: Result<QueueId, Failure>)
    ensures r.Err? <==> forall i :: 0 <= i < |q| ==> q[i].booking != booking
    ensures r.Err? ==> r.error == NotQueued
    ensures r.Ok? ==> r.value < |q| && q[r.value].booking == booking
  {
    match QueueRepository.FindByBookingId(q, booking)
    case None => Err(NotQueued)
    case Some(e) => Ok(e)
  }

  /** Once queued, a booking's status is the entry that was added for it. */
  lemma QueuedBookingHasStatus(q: seq<QueueEntry>, e: QueueEntry)
    requires forall i :: 0 <= i < |q| ==> q[i].booking != e.booking
    ensures CustomerQueueStatus(q + [e], e.booking) == Ok(|q|)
  {
    var q' := q + [e];
    var r := CustomerQueueStatus(q', e.booking);
    assert q'[|q|].booking == e.booking;
    assert forall i :: 0 <= i < |q| ==> q'[i] == q[i];
  }

  /** `getQueueStats` for a salon's dashboard. */
  datatype QueueStats = QueueStats(totalInQueue: nat, currentlyServing: nat, estimatedTotalWaitTime: int, averageWaitTime: int)

  /** Java's integer division of `a` by a positive `b`: the quotient truncated toward zero. */
  function TruncDiv(a: int, b: int): (r: int)
    requires b > 0
    ensures a >= 0 ==> 0 <= r && r * b <= a < r * b + b
    ensures a < 0 ==> r <= 0 && r * b - b < a <= r * b
  {
    if a >= 0 then a / b else -((-a) / b)
  }

  /** The wait estimate an entry carries. */
  function WaitOf(q: seq<QueueEntry>): nat -> int {
    (i: nat) => if i < |q| then q[i].estimatedWaitMinutes else 0
  }

  /**
   * `getQueueStats`: how many wait and how many are being served, the sum
   * of the waiting entries' estimates and their average (zero when nobody
   * waits).
   */
  function QueueStatsOf(q: seq<QueueEntry>, salon: SalonId): (r: QueueStats)
    ensures r.totalInQueue == 0 ==> r.averageWaitTime == 0
    ensures r.totalInQueue > 0 && r.estimatedTotalWaitTime >= 0 ==>
      r.averageWaitTime * r.totalInQueue <= r.estimatedTotalWaitTime < (r.averageWaitTime + 1) * r.totalInQueue
  {
    var waiting := Count(|q|, QueueRepository.WithStatus(q, salon, Waiting));
    var inService := Count(|q|, QueueRepository.WithStatus(q, salon, InService));
    var total := SumWhere(|q|, QueueRepository.WithStatus(q, salon, Waiting), WaitOf(q));
    QueueStats(waiting, inService, total, if waiting > 0 then TruncDiv(total, waiting) else 0)
  }

  /**
   * The statistics agree with the lists the rest of the service uses: the
   * number waiting is the length of the waiting list, the total is the sum
   * of their estimates, and waiting plus served is the length of the live
   * view.
   */
  lemma StatsMatchLists(q: seq<QueueEntry>, salon: SalonId)
    ensures var r := QueueStatsOf(q, salon);
      r.totalInQueue == |WaitingList(q, salon)| &&
      r.estimatedTotalWaitTime == Sum(WaitingList(q, salon), WaitOf(q)) &&
      r.totalInQueue + r.currentlyServing == |SalonQueue(q, salon)|
  {
    var waiting := QueueRepository.WithStatus(q, salon, Waiting);
    var serving := QueueRepository.WithStatus(q, salon, InService);
    var live := InLiveView(q, salon);
    QueueRepository.CountWaitingIsListLength(q, salon);
    SumOfSelect(|q|, waiting, QueueRepository.PositionKey(q), WaitOf(q));
    CountDisjoint(|q|, waiting, serving, live);
    CountIsFilterLength(|q|, live);
  }

  /** When every waiting estimate is non-negative, so are the total and the average. */
  lemma StatsNonNegative(q: seq<QueueEntry>, salon: SalonId)
    requires forall i :: 0 <= i < |q| ==> q[i].estimatedWaitMinutes >= 0
    ensures QueueStatsOf(q, salon).estimatedTotalWaitTime >= 0
    ensures QueueStatsOf(q, salon).averageWaitTime >= 0
  {
    SumWhereNonNegative(|q|, QueueRepository.WithStatus(q, salon, Waiting), WaitOf(q));
  }
}

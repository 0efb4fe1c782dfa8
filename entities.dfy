/**
 * The behaviour the entity classes carry themselves: a booking's life-cycle
 * helpers, a user's counters and account flags, and a salon's opening hours
 * and running rating.
 */
module Entities {
  import opened Wrappers
  import opened Domain

  // ----- Booking -----

  /** `Booking.markStarted`: the service begins at `now`. */
  function MarkStarted(b: Booking, now: Minutes): (r: Booking)
    ensures r.status == InProgress && r.actualStartTime == Some(now)
    ensures r.(status := b.status, actualStartTime := b.actualStartTime) == b
  {
    b.(actualStartTime := Some(now), status := InProgress)
  }

  /** `Booking.markCompleted`: the service ends at `now`. */
  function MarkCompleted(b: Booking, now: Minutes): (r: Booking)
    ensures r.status == Completed && r.actualEndTime == Some(now)
    ensures r.(status := b.status, actualEndTime := b.actualEndTime) == b
  {
    b.(actualEndTime := Some(now), status := Completed)
  }

  /**
   * `Booking.isLate`: the service has not started and the grace period after
   * the estimated start has passed (strictly).
   */
  predicate IsLate(b: Booking, graceMinutes: int, now: Minutes)
    ensures IsLate(b, graceMinutes, now) <==>
      b.actualStartTime.None? && now - b.estimatedStartTime > graceMinutes
  {
    b.actualStartTime.None? && now > b.estimatedStartTime + graceMinutes
  }

  /** Once started, a booking is never late, whatever the clock says. */
  lemma StartedIsNeverLate(b: Booking, start: Minutes, graceMinutes: int, now: Minutes)
    ensures !IsLate(MarkStarted(b, start), graceMinutes, now)
    ensures MarkStarted(b, start).status == InProgress
  {
  }

  /** Lateness only grows with time while the booking has not started. */
  lemma LatenessPersists(b: Booking, graceMinutes: int, t0: Minutes, t1: Minutes)
    requires t0 <= t1 && IsLate(b, graceMinutes, t0)
    ensures IsLate(b, graceMinutes, t1)
  {
  }

  /**
   * Starting then completing a booking records both times and leaves every
   * other field as it was.
   */
  lemma StartThenComplete(b: Booking, s: Minutes, e: Minutes)
    ensures var r := MarkCompleted(MarkStarted(b, s), e);
      r.status == Completed && r.actualStartTime == Some(s) && r.actualEndTime == Some(e) &&
      r.(status := b.status, actualStartTime := b.actualStartTime, actualEndTime := b.actualEndTime) == b
  {
  }

  // ----- User -----

  /** The number of no-shows after which a customer may not book online. */
  const BlacklistThreshold := 3

  /** `User.incrementNoShowCount`; unboxing an unset counter throws. */
  function IncrementNoShowCount(u: User): (r: Result<User, Failure>)
    ensures r.Err? <==> u.noShowCount.None?
    ensures r.Ok? ==> r.value.noShowCount == Some(u.noShowCount.value + 1)
    ensures r.Ok? ==> r.value.(noShowCount := u.noShowCount) == u
  {
    match u.noShowCount
    case None => Err(NullValue)
    case Some(n) => Ok(u.(noShowCount := Some(n + 1)))
  }

  /** `User.incrementTotalBookings`; unboxing an unset counter throws. */
  function IncrementTotalBookings(u: User): (r: Result<User, Failure>)
    ensures r.Err? <==> u.totalBookings.None?
    ensures r.Ok? ==> r.value.totalBookings == Some(u.totalBookings.value + 1)
    ensures r.Ok? ==> r.value.(totalBookings := u.totalBookings) == u
  {
    match u.totalBookings
    case None => Err(NullValue)
    case Some(n) => Ok(u.(totalBookings := Some(n + 1)))
  }

  /** `User.isBlacklisted`: three or more no-shows; unboxing an unset counter throws. */
  function IsBlacklisted(u: User): (r: Result<bool, Failure>)
    ensures r.Err? <==> u.noShowCount.None?
    ensures r.Ok? ==> (r.value <==> u.noShowCount.value >= 3)
  {
    match u.noShowCount
    case None => Err(NullValue)
    case Some(n) => Ok(n >= BlacklistThreshold)
  }

  /** `User.isAccountNonLocked`: the account is active; unboxing an unset flag throws. */
  function IsAccountNonLocked(u: User): (r: Result<bool, Failure>)
    ensures r.Err? <==> u.isActive.None?
    ensures r.Ok? ==> (r.value <==> u.isActive == Some(true))
  {
    match u.isActive
    case None => Err(NullValue)
    case Some(a) => Ok(a)
  }

  /** `User.isEnabled`: active and verified; unboxing an unset flag throws. */
  function IsEnabled(u: User): (r: Result<bool, Failure>)
    ensures r.Err? <==> u.isActive.None?
    ensures r.Ok? ==> (r.value <==> u.isActive == Some(true) && u.isVerified)
  {
    match u.isActive
    case None => Err(NullValue)
    case Some(a) => Ok(a && u.isVerified)
  }

  /** An enabled account is never locked, and a locked one is never enabled. */
  lemma EnabledIsNonLocked(u: User)
    ensures IsEnabled(u).Err? <==> IsAccountNonLocked(u).Err?
    ensures IsEnabled(u).Ok? && IsEnabled(u).value ==> IsAccountNonLocked(u).value
    ensures IsEnabled(u).Ok? ==> (IsEnabled(u).value <==> IsAccountNonLocked(u).value && u.isVerified)
  {
  }

  /** A blacklisted customer stays blacklisted after a further no-show. */
  lemma BlacklistPersists(u: User)
    requires IsBlacklisted(u) == Ok(true)
    ensures IncrementNoShowCount(u).Ok?
    ensures IsBlacklisted(IncrementNoShowCount(u).value) == Ok(true)
  {
  }

  /** Applies `k` no-shows in a row, or fails on an unset counter. */
  function NoShows(u: User, k: nat): (r: Result<User, Failure>)
    ensures r.Err? <==> k > 0 && u.noShowCount.None?
    decreases k
  {
    if k == 0 then Ok(u)
    else
      match IncrementNoShowCount(u)
      case Err(e) => Err(e)
      case Ok(v) => NoShows(v, k - 1)
  }

  /** `k` no-shows add exactly `k` to a set counter and change nothing else. */
  lemma {:induction false} NoShowsAdd(u: User, k: nat)
    requires u.noShowCount.Some?
    ensures NoShows(u, k).Ok?
    ensures NoShows(u, k).value == u.(noShowCount := Some(u.noShowCount.value + k))
    decreases k
  {
    if k > 0 {
      NoShowsAdd(u.(noShowCount := Some(u.noShowCount.value + 1)), k - 1);
    }
  }

  /**
   * A new customer (no no-shows yet) is blacklisted exactly from the third
   * no-show on.
   */
  lemma ThirdNoShowBlacklists(u: User, k: nat)
    requires u.noShowCount == Some(0)
    ensures NoShows(u, k).Ok?
    ensures IsBlacklisted(NoShows(u, k).value) == Ok(k >= 3)
  {
    NoShowsAdd(u, k);
  }

  // ----- Salon -----

  /**
   * `Salon.isOpenNow`: the open flag is set and the time of day lies strictly
   * between opening and closing time.
   */
  predicate IsOpenNow(s: Salon, now: TimeOfDay)
    ensures !s.isOpen ==> !IsOpenNow(s, now)
    ensures IsOpenNow(s, now) ==> s.openingTime < s.closingTime
  {
    s.isOpen && s.openingTime < now < s.closingTime
  }

  /**
   * A salon whose closing time is not after its opening time (for example
   * one open past midnight) is never reported open; neither is one at its
   * exact opening or closing minute.
   */
  lemma OvernightSalonNeverOpen(s: Salon, now: TimeOfDay)
    ensures s.closingTime <= s.openingTime + 1 ==> !IsOpenNow(s, now)
    ensures now == s.openingTime || now == s.closingTime ==> !IsOpenNow(s, now)
  {
  }

  /** Rounds to two decimals, halves away from zero (`ROUND_HALF_UP`). */
  function RoundHalfUp2(x: real): (r: real)
    ensures (r * 100.0).Floor as real == r * 100.0
    ensures x >= 0.0 ==> r >= 0.0
    ensures x <= 0.0 ==> r <= 0.0
  {
    if x >= 0.0 then
      var f := (x * 100.0 + 0.5).Floor;
      assert (f as real / 100.0) * 100.0 == f as real;
      (f as real) / 100.0
    else
      var f := ((-x) * 100.0 + 0.5).Floor;
      assert -(f as real / 100.0) * 100.0 == (-f) as real;
      -((f as real) / 100.0)
  }

  /** The rounded value is within half a hundredth of the exact one. */
  lemma RoundHalfUp2Error(x: real)
    ensures x >= 0.0 ==> -0.005 < RoundHalfUp2(x) - x <= 0.005
    ensures x < 0.0 ==> -0.005 <= RoundHalfUp2(x) - x < 0.005
  {
    if x >= 0.0 {
      var f := (x * 100.0 + 0.5).Floor;
      assert f as real <= x * 100.0 + 0.5 < f as real + 1.0;
    } else {
      var f := ((-x) * 100.0 + 0.5).Floor;
      assert f as real <= (-x) * 100.0 + 0.5 < f as real + 1.0;
    }
  }

  /** Rounding keeps a value that already lies in `[0, m]` for whole `m` inside it. */
  lemma RoundHalfUp2Bounds(x: real, m: nat)
    requires 0.0 <= x <= m as real
    ensures 0.0 <= RoundHalfUp2(x) <= m as real
  {
    var f := (x * 100.0 + 0.5).Floor;
    assert f as real <= x * 100.0 + 0.5;
    assert f <= 100 * m;
  }

  /** Non-linear real arithmetic the solver does not find on its own every time. */
  lemma NonNegativeProduct(a: real, b: real)
    requires a >= 0.0 && b >= 0.0
    ensures a * b >= 0.0
  {
  }

  /** The mean of `n` ratings averaging `rating` and one more rating. */
  function WeightedMean(rating: real, n: nat, newRating: real): real {
    (rating * n as real + newRating) / (n + 1) as real
  }

  /**
   * `Salon.updateRating`: folds one more rating into the running mean,
   * rounded to two decimals, and counts one more review; the first rating
   * is taken as is.
   */
  function UpdateRating(s: Salon, newRating: real): (r: Salon)
    requires s.totalReviews >= 0
    ensures r.totalReviews == s.totalReviews + 1
    ensures s.totalReviews == 0 ==> r.rating == newRating
    ensures r.(rating := s.rating, totalReviews := s.totalReviews) == s
  {
    var n := s.totalReviews;
    if n == 0 then s.(rating := newRating, totalReviews := n + 1)
    else s.(rating := RoundHalfUp2(WeightedMean(s.rating, n, newRating)),
            totalReviews := n + 1)
  }

  /**
   * With a rating and a new review both within the 0..5 scale and a
   * non-negative review count, the updated rating stays on the scale and is
   * within half a hundredth of the exact weighted mean.
   */
  lemma UpdateRatingStaysOnScale(s: Salon, newRating: real)
    requires 0.0 <= s.rating <= 5.0 && 0.0 <= newRating <= 5.0 && s.totalReviews >= 0
    ensures 0.0 <= UpdateRating(s, newRating).rating <= 5.0
    ensures -0.005 < UpdateRating(s, newRating).rating - WeightedMean(s.rating, s.totalReviews, newRating) <= 0.005
  {
    var n := s.totalReviews;
    if n > 0 {
      var total := s.rating * n as real + newRating;
      var d := (n + 1) as real;
      var exact := WeightedMean(s.rating, n, newRating);
      assert exact == total / d;
      var nr := n as real;
      NonNegativeProduct(5.0 - s.rating, nr);
      NonNegativeProduct(s.rating, nr);
      assert 0.0 <= total <= 5.0 * d;
      assert exact * d == total;
      assert 0.0 <= exact <= 5.0;
      RoundHalfUp2Bounds(exact, 5);
      RoundHalfUp2Error(exact);
    }
  }
}

/**
 * Reviews of completed bookings, and the salon and barber ratings kept as
 * the mean of the reviews stored for them.
 */
module ReviewService {
  import opened Wrappers
  import opened Domain
  import opened Store

  /** What a rating is kept for. */
  datatype Target = OfSalon(salon: SalonId) | OfBarber(barber: BarberId)

  predicate About(r: Review, t: Target) {
    match t
    case OfSalon(s) => r.salon == s
    case OfBarber(b) => r.barber == Some(b)
  }

  /** The rating one stored row contributes to the ratings about `t`. */
  function Contribution(o: Option<Review>, t: Target): seq<int> {
    if o.Some? && About(o.value, t) then [o.value.rating] else []
  }

  /** The ratings of the stored reviews about `t`, in id order. */
  function Ratings(rs: seq<Option<Review>>, t: Target): (r: seq<int>)
    ensures |r| <= |rs|
  {
    if rs == [] then [] else Ratings(rs[..|rs| - 1], t) + Contribution(rs[|rs| - 1], t)
  }

  function Total(xs: seq<int>): int {
    if xs == [] then 0 else Total(xs[..|xs| - 1]) + xs[|xs| - 1]
  }

  /** `AVG(r.rating)`, or 0 when there is nothing to average. */
  function Mean(xs: seq<int>): real {
    if xs == [] then 0.0 else Total(xs) as real / |xs| as real
  }

  /** Every stored rating is on the 1..5 scale. */
  predicate RatingsOnScale(rs: seq<Option<Review>>) {
    forall i :: 0 <= i < |rs| && rs[i].Some? ==> 1 <= rs[i].value.rating <= 5
  }

  /** A booking is reviewed at most once. */
  predicate OneReviewPerBooking(rs: seq<Option<Review>>) {
    forall i, j :: 0 <= i < j < |rs| && rs[i].Some? && rs[j].Some? ==> rs[i].value.booking != rs[j].value.booking
  }

  /** `existsByBookingId`. */
  predicate Reviewed(rs: seq<Option<Review>>, booking: BookingId) {
    exists i :: 0 <= i < |rs| && rs[i].Some? && rs[i].value.booking == booking
  }

  // ----- Ratings as means -----

  /** Storing one more review adds its rating to exactly the targets it is about. */
  lemma {:induction false} RatingsAppend(rs: seq<Option<Review>>, r: Review, t: Target)
    ensures Ratings(rs + [Some(r)], t) == Ratings(rs, t) + if About(r, t) then [r.rating] else []
  {
    assert (rs + [Some(r)])[..|rs|] == rs;
  }

  lemma {:induction false} TotalAppend(xs: seq<int>, ys: seq<int>)
    ensures Total(xs + ys) == Total(xs) + Total(ys)
    decreases |ys|
  {
    if ys == [] {
      assert xs + ys == xs;
    } else {
      assert (xs + ys)[..|xs + ys| - 1] == xs + ys[..|ys| - 1];
      TotalAppend(xs, ys[..|ys| - 1]);
    }
  }

  /** Deleting a stored review takes one rating out of exactly the targets it was about. */
  lemma {:induction false} RatingsDelete(rs: seq<Option<Review>>, id: ReviewId, t: Target)
    requires id < |rs| && rs[id].Some?
    ensures var n := if About(rs[id].value, t) then 1 else 0;
      |Ratings(rs[id := None], t)| == |Ratings(rs, t)| - n &&
      Total(Ratings(rs[id := None], t)) == Total(Ratings(rs, t)) - n * rs[id].value.rating
  {
    var rs' := rs[id := None];
    var front, front' := rs[..|rs| - 1], rs'[..|rs| - 1];
    var last, last' := Contribution(rs[|rs| - 1], t), Contribution(rs'[|rs| - 1], t);
    assert Ratings(rs, t) == Ratings(front, t) + last;
    assert Ratings(rs', t) == Ratings(front', t) + last';
    TotalAppend(Ratings(front, t), last);
    TotalAppend(Ratings(front', t), last');
    if id == |rs| - 1 {
      assert front' == front;
      assert last' == [];
    } else {
      assert front' == front[id := None];
      assert last' == last;
      RatingsDelete(front, id, t);
    }
  }

  lemma {:induction false} RatingsOfScale(rs: seq<Option<Review>>, t: Target)
    requires RatingsOnScale(rs)
    ensures forall k :: 0 <= k < |Ratings(rs, t)| ==> 1 <= Ratings(rs, t)[k] <= 5
  {
    if rs != [] {
      RatingsOfScale(rs[..|rs| - 1], t);
    }
  }

  lemma {:induction false} TotalBounds(xs: seq<int>)
    requires forall k :: 0 <= k < |xs| ==> 1 <= xs[k] <= 5
    ensures |xs| <= Total(xs) <= 5 * |xs|
  {
    if xs != [] {
      TotalBounds(xs[..|xs| - 1]);
    }
  }

  /** With every stored rating on the 1..5 scale, a mean of them is 0 with no reviews and within 1..5 otherwise. */
  lemma MeanOnScale(rs: seq<Option<Review>>, t: Target)
    requires RatingsOnScale(rs)
    ensures Ratings(rs, t) == [] ==> Mean(Ratings(rs, t)) == 0.0
    ensures Ratings(rs, t) != [] ==> 1.0 <= Mean(Ratings(rs, t)) <= 5.0
  {
    var xs := Ratings(rs, t);
    if xs != [] {
      RatingsOfScale(rs, t);
      TotalBounds(xs);
      QuotientBounds(Total(xs) as real, |xs| as real);
    }
  }

  lemma QuotientBounds(s: real, n: real)
    requires 0.0 < n <= s <= 5.0 * n
    ensures 1.0 <= s / n <= 5.0
  {
    var q := s / n;
    assert q * n == s;
    assert (1.0 - q) * n <= 0.0;
    assert (q - 5.0) * n <= 0.0;
  }

  // ----- Refreshing ratings -----

  /** `updateSalonRating`: the salon's rating is the mean of its reviews, its count their number. */
  function RatedSalon(s: Salon, rs: seq<Option<Review>>, salon: SalonId): (r: Salon)
    ensures r.totalReviews == |Ratings(rs, OfSalon(salon))|
    ensures r.rating == Mean(Ratings(rs, OfSalon(salon)))
    ensures r.(rating := s.rating, totalReviews := s.totalReviews) == s
  {
    s.(rating := Mean(Ratings(rs, OfSalon(salon))), totalReviews := |Ratings(rs, OfSalon(salon))|)
  }

  /** `updateBarberRating`: the barber's rating is the mean of their reviews. */
  function RatedBarber(b: Barber, rs: seq<Option<Review>>, barber: BarberId): (r: Barber)
    ensures r.rating == Mean(Ratings(rs, OfBarber(barber)))
    ensures r.(rating := b.rating) == b
  {
    b.(rating := Mean(Ratings(rs, OfBarber(barber))))
  }

  /** The salon table with `salon`'s rating refreshed. */
  function RerateSalon(salons: seq<Salon>, rs: seq<Option<Review>>, salon: SalonId): seq<Salon>
    requires salon < |salons|
  {
    salons[salon := RatedSalon(salons[salon], rs, salon)]
  }

  /** The barber table with the rating of `barber`, if there is one, refreshed. */
  function RerateBarber(barbers: seq<Barber>, rs: seq<Option<Review>>, barber: Option<BarberId>): seq<Barber>
    requires barber.Some? ==> barber.value < |barbers|
  {
    if barber.None? then barbers else barbers[barber.value := RatedBarber(barbers[barber.value], rs, barber.value)]
  }

  // ----- Creating a review -----

  /** The checks of `createReview`, in the order it makes them. */
  function CreateReviewCheck(bs: seq<Booking>, rs: seq<Option<Review>>, customer: UserId,
                             booking: BookingId, rating: int): (r: Outcome<Failure>)
    ensures r.Pass? <==>
      booking < |bs| && bs[booking].customer == customer && bs[booking].status == Completed &&
      !Reviewed(rs, booking) && 1 <= rating <= 5
    ensures booking >= |bs| ==> r == Fail(NotFound(MissingBooking))
    ensures booking < |bs| && bs[booking].customer != customer ==> r == Fail(Rejected(NotOwnBooking))
    ensures booking < |bs| && bs[booking].customer == customer && bs[booking].status != Completed ==>
      r == Fail(Rejected(NotYetCompleted))
  {
    if booking >= |bs| then Fail(NotFound(MissingBooking))
    else if bs[booking].customer != customer then Fail(Rejected(NotOwnBooking))
    else if bs[booking].status != Completed then Fail(Rejected(NotYetCompleted))
    else if Reviewed(rs, booking) then Fail(Rejected(AlreadyReviewed))
    else if rating < 1 || rating > 5 then Fail(Rejected(RatingOutOfRange))
    else Pass
  }

  /** The review of a booking: its customer, salon and barber, with the given rating. */
  function NewReview(bs: seq<Booking>, booking: BookingId, rating: int, comment: Option<string>): (r: Review)
    requires booking < |bs|
    ensures r.booking == booking && r.rating == rating && r.comment == comment
    ensures r.customer == bs[booking].customer && r.salon == bs[booking].salon && r.barber == bs[booking].barber
  {
    Review(booking, bs[booking].customer, bs[booking].salon, bs[booking].barber, rating, comment)
  }

  /**
   * A review accepted by the checks keeps every stored rating on the scale
   * and every booking reviewed at most once, and adds its rating to its
   * salon's and barber's ratings and to no other.
   */
  lemma CreateKeepsInvariants(bs: seq<Booking>, rs: seq<Option<Review>>, customer: UserId,
                              booking: BookingId, rating: int, comment: Option<string>, t: Target)
    requires CreateReviewCheck(bs, rs, customer, booking, rating).Pass?
    ensures var rs' := rs + [Some(NewReview(bs, booking, rating, comment))];
      (RatingsOnScale(rs) ==> RatingsOnScale(rs')) &&
      (OneReviewPerBooking(rs) ==> OneReviewPerBooking(rs')) &&
      Reviewed(rs', booking)
    ensures var r := NewReview(bs, booking, rating, comment);
      Ratings(rs + [Some(r)], t) == Ratings(rs, t) + if About(r, t) then [rating] else []
  {
    var r := NewReview(bs, booking, rating, comment);
    var rs' := rs + [Some(r)];
    RatingsAppend(rs, r, t);
    assert rs'[|rs|] == Some(r);
    if OneReviewPerBooking(rs) {
      forall i, j | 0 <= i < j < |rs'| && rs'[i].Some? && rs'[j].Some?
        ensures rs'[i].value.booking != rs'[j].value.booking
      {
        if j == |rs| {
          assert rs[i] == rs'[i];
        }
      }
    }
  }

  /**
   * `createReview`: stores the review, then refreshes the salon's rating and,
   * when the booking had a barber, the barber's.
   */
  method CreateReview(st: Store, customer: UserId, booking: BookingId, rating: int, comment: Option<string>)
    returns (r: Result<ReviewId, Failure>)
    requires st.Valid()
    modifies st`reviews, st`salons, st`barbers
    ensures st.Valid()
    ensures var check := CreateReviewCheck(st.bookings, old(st.reviews), customer, booking, rating);
      check.Fail? ==>
        r == Err(check.error) &&
        st.reviews == old(st.reviews) && st.salons == old(st.salons) && st.barbers == old(st.barbers)
    ensures CreateReviewCheck(st.bookings, old(st.reviews), customer, booking, rating).Pass? ==>
      var b := st.bookings[booking];
      b.salon < |old(st.salons)| && (b.barber.Some? ==> b.barber.value < |old(st.barbers)|) &&
      r == Ok(|old(st.reviews)|) &&
      st.reviews == old(st.reviews) + [Some(NewReview(st.bookings, booking, rating, comment))] &&
      st.salons == RerateSalon(old(st.salons), st.reviews, b.salon) &&
      st.barbers == RerateBarber(old(st.barbers), st.reviews, b.barber)
  {
    var check := CreateReviewCheck(st.bookings, st.reviews, customer, booking, rating);
    if check.Fail? {
      return Err(check.error);
    }
    var b := st.bookings[booking];
    assert BookingRefs(b, |st.users|, |st.salons|, |st.services|, |st.barbers|);
    var id := |st.reviews|;
    st.reviews := st.reviews + [Some(NewReview(st.bookings, booking, rating, comment))];
    st.salons := RerateSalon(st.salons, st.reviews, b.salon);
    st.barbers := RerateBarber(st.barbers, st.reviews, b.barber);
    GrowKeepsConsistent(st.users, old(st.salons), st.services, old(st.barbers), st.bookings, st.queue,
                        st.salons, st.services, st.barbers);
    r := Ok(id);
  }

  // ----- Deleting a review -----

  /** The checks of `deleteReview`: the review exists, is the user's own, and its salon and barber exist. */
  function DeleteReviewCheck(rs: seq<Option<Review>>, salons: seq<Salon>, barbers: seq<Barber>,
                             id: ReviewId, user: UserId): (r: Outcome<Failure>)
    ensures r.Pass? <==>
      id < |rs| && rs[id].Some? && rs[id].value.customer == user &&
      rs[id].value.salon < |salons| && (rs[id].value.barber.Some? ==> rs[id].value.barber.value < |barbers|)
    ensures id >= |rs| || rs[id].None? ==> r == Fail(NotFound(MissingReview))
    ensures id < |rs| && rs[id].Some? && rs[id].value.customer != user ==> r == Fail(Rejected(NotOwnReview))
  {
    if id >= |rs| || rs[id].None? then Fail(NotFound(MissingReview))
    else if rs[id].value.customer != user then Fail(Rejected(NotOwnReview))
    else if rs[id].value.salon >= |salons| then Fail(NotFound(MissingSalon))
    else if rs[id].value.barber.Some? && rs[id].value.barber.value >= |barbers| then Fail(NotFound(MissingBarber))
    else Pass
  }

  /**
   * Deleting a review keeps the stored ratings on the scale, lets its booking
   * be reviewed again when bookings were reviewed at most once, and takes one
   * review out of the count of its salon.
   */
  lemma DeleteKeepsInvariants(rs: seq<Option<Review>>, id: ReviewId)
    requires id < |rs| && rs[id].Some?
    ensures RatingsOnScale(rs) ==> RatingsOnScale(rs[id := None])
    ensures OneReviewPerBooking(rs) ==> OneReviewPerBooking(rs[id := None]) && !Reviewed(rs[id := None], rs[id].value.booking)
    ensures |Ratings(rs[id := None], OfSalon(rs[id].value.salon))| == |Ratings(rs, OfSalon(rs[id].value.salon))| - 1
  {
    RatingsDelete(rs, id, OfSalon(rs[id].value.salon));
    var rs' := rs[id := None];
    if OneReviewPerBooking(rs) {
      forall i | 0 <= i < |rs'| && rs'[i].Some?
        ensures rs'[i].value.booking != rs[id].value.booking
      {
        if i < id {
          assert rs[i].value.booking != rs[id].value.booking;
        } else if i > id {
          assert rs[id].value.booking != rs[i].value.booking;
        }
      }
    }
  }

  /**
   * `deleteReview`: removes the user's own review, then refreshes its salon's
   * rating and, when it named a barber, the barber's.
   */
  method DeleteReview(st: Store, id: ReviewId, user: UserId) returns (out: Outcome<Failure>)
    requires st.Valid()
    modifies st`reviews, st`salons, st`barbers
    ensures st.Valid()
    ensures out == DeleteReviewCheck(old(st.reviews), old(st.salons), old(st.barbers), id, user)
    ensures out.Fail? ==> st.reviews == old(st.reviews) && st.salons == old(st.salons) && st.barbers == old(st.barbers)
    ensures out.Pass? ==>
      var gone := old(st.reviews)[id].value;
      st.reviews == old(st.reviews)[id := None] &&
      st.salons == RerateSalon(old(st.salons), st.reviews, gone.salon) &&
      st.barbers == RerateBarber(old(st.barbers), st.reviews, gone.barber)
  {
    out := DeleteReviewCheck(st.reviews, st.salons, st.barbers, id, user);
    if out.Fail? {
      return;
    }
    var gone := st.reviews[id].value;
    st.reviews := st.reviews[id := None];
    st.salons := RerateSalon(st.salons, st.reviews, gone.salon);
    st.barbers := RerateBarber(st.barbers, st.reviews, gone.barber);
    GrowKeepsConsistent(st.users, old(st.salons), st.services, old(st.barbers), st.bookings, st.queue,
                        st.salons, st.services, st.barbers);
  }
}

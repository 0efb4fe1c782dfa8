/** The queries of the barber table; a barber is named by its index in `barbers`. */
module BarberRepository {
  import opened Wrappers
  import opened Domain
  import opened Collections

  /** Orders barber ids by the number of services done; ids outside the table sort first. */
  function LoadKey(barbers: seq<Barber>): nat -> int {
    (i: nat) => if i < |barbers| then barbers[i].totalServices else 0
  }

  /** `findBySalonId`, in table order. */
  function BySalon(barbers: seq<Barber>, salon: SalonId): (r: seq<nat>)
    ensures forall k :: 0 <= k < |r| ==> r[k] < |barbers| && barbers[r[k]].salon == salon
    ensures forall i :: 0 <= i < |barbers| && barbers[i].salon == salon ==> i in r
    ensures Increasing(r)
  {
    var p := (i: nat) => i < |barbers| && barbers[i].salon == salon;
    FilterIncreasing(|barbers|, p);
    Filter(|barbers|, p)
  }

  /** A barber of the salon who is taking customers. */
  predicate IsAvailableAt(b: Barber, salon: SalonId) {
    b.salon == salon && b.isAvailable
  }

  /** `findBySalonIdAndIsAvailableTrue`, in table order. */
  function AvailableBySalon(barbers: seq<Barber>, salon: SalonId): (r: seq<nat>)
    ensures forall k :: 0 <= k < |r| ==> r[k] < |barbers| && IsAvailableAt(barbers[r[k]], salon)
    ensures forall i :: 0 <= i < |barbers| && IsAvailableAt(barbers[i], salon) ==> i in r
    ensures Increasing(r)
    ensures |r| == |set i | 0 <= i < |barbers| && IsAvailableAt(barbers[i], salon)|
  {
    var p := (i: nat) => i < |barbers| && IsAvailableAt(barbers[i], salon);
    FilterIncreasing(|barbers|, p);
    CountIsFilterLength(|barbers|, p);
    CountIsSize(|barbers|, p);
    assert (set i: nat | i < |barbers| && p(i)) == (set i | 0 <= i < |barbers| && IsAvailableAt(barbers[i], salon));
    Filter(|barbers|, p)
  }

  /** `findByUserId`: the barber profile of a user account, if any. */
  function FindByUserId(barbers: seq<Barber>, user: UserId): (r: Option<nat>)
    ensures r.None? <==> forall i :: 0 <= i < |barbers| ==> barbers[i].user != Some(user)
    ensures r.Some? ==> r.value < |barbers| && barbers[r.value].user == Some(user)
  {
    var p := (i: nat) => i < |barbers| && barbers[i].user == Some(user);
    var r := First(|barbers|, p);
    assert r.None? ==> forall i :: 0 <= i < |barbers| ==> barbers[i].user != Some(user) by {
      if r.None? {
        forall i | 0 <= i < |barbers|
          ensures barbers[i].user != Some(user)
        {
          assert !p(i);
        }
      }
    }
    r
  }

  /**
   * `findAvailableBarbersOrderByLoad`: the salon's available barbers, fewest
   * services done first.
   */
  function AvailableByLoad(barbers: seq<Barber>, salon: SalonId): (r: seq<nat>)
    ensures forall k :: 0 <= k < |r| ==> r[k] < |barbers| && IsAvailableAt(barbers[r[k]], salon)
    ensures forall i :: 0 <= i < |barbers| && IsAvailableAt(barbers[i], salon) ==> i in r
    ensures forall j, k :: 0 <= j < k < |r| ==> barbers[r[j]].totalServices <= barbers[r[k]].totalServices
    ensures Distinct(r)
  {
    var r := Select(|barbers|, (i: nat) => i < |barbers| && IsAvailableAt(barbers[i], salon),
      LoadKey(barbers));
    assert forall j, k :: 0 <= j < k < |r| ==> LoadKey(barbers)(r[j]) <= LoadKey(barbers)(r[k]);
    r
  }
}

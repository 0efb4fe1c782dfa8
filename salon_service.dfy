/**
 * Salons and what they offer: creating a salon with its first services,
 * patching it, opening and closing it, adding services and barbers, and the
 * read-only availability and keyword search.
 */
module SalonService {
  import opened Wrappers
  import opened Domain
  import opened Collections
  import opened Store
  import Entities
  import QueueRepository
  import QueueService
  import BarberRepository
  import BookingService

  /** 09:00 and 21:00, the hours a salon gets when none are given. */
  const DefaultOpening: TimeOfDay := 9 * 60
  const DefaultClosing: TimeOfDay := 21 * 60
  /** The share of a new salon's capacity offered for online booking. */
  const DefaultOnlinePercentage := 70
  /** A new salon's free subscription runs for thirty days. */
  const TrialMinutes: Minutes := 30 * 24 * 60

  /** A service to offer, as requested. */
  datatype ServiceRequest = ServiceRequest(
    name: string,
    description: Option<string>,
    price: int,
    durationMinutes: int,
    category: Option<ServiceCategory>)

  datatype CreateSalonRequest = CreateSalonRequest(
    name: string,
    description: Option<string>,
    address: string,
    city: string,
    state: string,
    pincode: string,
    latitude: Option<real>,
    longitude: Option<real>,
    phone: string,
    openingTime: Option<TimeOfDay>,
    closingTime: Option<TimeOfDay>,
    services: Option<seq<ServiceRequest>>)

  /** The fields `updateSalon` may change; `None` leaves a field alone. */
  datatype UpdateSalonRequest = UpdateSalonRequest(
    name: Option<string>,
    description: Option<string>,
    address: Option<string>,
    phone: Option<string>,
    openingTime: Option<TimeOfDay>,
    closingTime: Option<TimeOfDay>,
    onlineBookingPercentage: Option<int>)

  datatype BarberRequest = BarberRequest(
    name: string,
    phone: Option<string>,
    specialization: Option<string>,
    experienceYears: Option<int>)

  // ----- Coordinates and owners -----

  /** `validateCoordinates`: both given, latitude within ±90 and longitude within ±180 degrees. */
  function ValidateCoordinates(latitude: Option<real>, longitude: Option<real>): (r: Outcome<Failure>)
    ensures r.Pass? <==>
      latitude.Some? && longitude.Some? && -90.0 <= latitude.value <= 90.0 && -180.0 <= longitude.value <= 180.0
    ensures latitude.None? || longitude.None? ==> r == Fail(Rejected(CoordinatesRequired))
  {
    if latitude.None? || longitude.None? then Fail(Rejected(CoordinatesRequired))
    else if latitude.value < -90.0 || latitude.value > 90.0 || longitude.value < -180.0 || longitude.value > 180.0 then
      Fail(Rejected(InvalidCoordinates))
    else Pass
  }

  /** The checks of `createSalon`: the owner exists, may own salons, and gave valid coordinates. */
  function CreateSalonCheck(users: seq<User>, owner: UserId, req: CreateSalonRequest): (r: Outcome<Failure>)
    ensures r.Pass? <==>
      owner < |users| && users[owner].role in {SalonOwnerRole, AdminRole} &&
      ValidateCoordinates(req.latitude, req.longitude).Pass?
    ensures owner >= |users| ==> r == Fail(NotFound(MissingOwner))
    ensures owner < |users| && users[owner].role !in {SalonOwnerRole, AdminRole} ==> r == Fail(Rejected(NotSalonOwner))
  {
    if owner >= |users| then Fail(NotFound(MissingOwner))
    else if users[owner].role != SalonOwnerRole && users[owner].role != AdminRole then Fail(Rejected(NotSalonOwner))
    else ValidateCoordinates(req.latitude, req.longitude)
  }

  /** The check `updateSalon`, `addService` and `addBarber` share: the salon exists and `owner` owns it. */
  function OwnerCheck(salons: seq<Salon>, salon: SalonId, owner: UserId): (r: Outcome<Failure>)
    ensures r.Pass? <==> salon < |salons| && salons[salon].owner == owner
    ensures salon >= |salons| ==> r == Fail(NotFound(MissingSalon))
  {
    if salon >= |salons| then Fail(NotFound(MissingSalon))
    else if salons[salon].owner != owner then Fail(Rejected(NoPermission))
    else Pass
  }

  // ----- Creating a salon -----

  /** The salon `createSalon` saves. */
  function NewSalon(owner: UserId, req: CreateSalonRequest, now: Minutes): (r: Salon)
    requires req.latitude.Some? && req.longitude.Some?
    ensures r.owner == owner && r.name == req.name && r.address == req.address && r.city == req.city
    ensures r.latitude == req.latitude.value && r.longitude == req.longitude.value
    ensures req.openingTime.Some? ==> r.openingTime == req.openingTime.value
    ensures req.openingTime.None? ==> r.openingTime == DefaultOpening
    ensures req.closingTime.Some? ==> r.closingTime == req.closingTime.value
    ensures req.closingTime.None? ==> r.closingTime == DefaultClosing
    ensures r.isOpen && r.acceptsOnlineBooking && r.onlineBookingPercentage == DefaultOnlinePercentage
    ensures r.rating == 0.0 && r.totalReviews == 0
    ensures r.subscriptionTier == Free && r.subscriptionExpiresAt == Some(now + TrialMinutes)
  {
    Salon(owner, req.name, req.description, req.address, req.city, req.state, req.pincode,
          req.latitude.value, req.longitude.value, req.phone,
          req.openingTime.GetOr(DefaultOpening), req.closingTime.GetOr(DefaultClosing),
          true, true, DefaultOnlinePercentage, 0.0, 0, Free, Some(now + TrialMinutes))
  }

  /** The services asked for; a missing list asks for none. */
  function Requested(req: CreateSalonRequest): seq<ServiceRequest> {
    req.services.GetOr([])
  }

  /** A service of `salon` as requested, offered from the start. */
  function NewService(salon: SalonId, req: ServiceRequest): (r: Service)
    ensures r.salon == salon && r.isActive
    ensures r.name == req.name && r.description == req.description && r.category == req.category
    ensures r.price == req.price && r.durationMinutes == req.durationMinutes
  {
    Service(salon, req.name, req.description, req.price, req.durationMinutes, req.category, true)
  }

  /** One new service per request, in request order, each active and of `salon`. */
  function NewServices(salon: SalonId, reqs: seq<ServiceRequest>): (r: seq<Service>)
    ensures |r| == |reqs|
    ensures forall i :: 0 <= i < |r| ==> r[i].salon == salon && r[i].isActive
    ensures forall i :: 0 <= i < |r| ==>
      r[i].name == reqs[i].name && r[i].price == reqs[i].price && r[i].durationMinutes == reqs[i].durationMinutes
  {
    if reqs == [] then [] else NewServices(salon, reqs[..|reqs| - 1]) + [NewService(salon, reqs[|reqs| - 1])]
  }

  /**
   * A new salon is open and takes online bookings; when no hours were
   * given it counts as open strictly between 09:00 and 21:00, and it has
   * no rating yet.
   */
  lemma NewSalonDefaults(owner: UserId, req: CreateSalonRequest, now: Minutes, clock: TimeOfDay)
    requires req.latitude.Some? && req.longitude.Some?
    ensures var s := NewSalon(owner, req, now);
      s.isOpen && s.acceptsOnlineBooking && s.onlineBookingPercentage == 70 &&
      s.rating == 0.0 && s.totalReviews == 0 && s.subscriptionTier == Free &&
      s.subscriptionExpiresAt == Some(now + 30 * 24 * 60)
    ensures req.openingTime.None? && req.closingTime.None? ==>
      (Entities.IsOpenNow(NewSalon(owner, req, now), clock) <==> 9 * 60 < clock < 21 * 60)
  {
  }

  /** The creator of a salon passes the owner check every later change of it makes. */
  lemma CreatorOwns(salons: seq<Salon>, owner: UserId, req: CreateSalonRequest, now: Minutes)
    requires req.latitude.Some? && req.longitude.Some?
    ensures OwnerCheck(salons + [NewSalon(owner, req, now)], |salons|, owner) == Pass
    ensures forall other: UserId :: other != owner ==>
      OwnerCheck(salons + [NewSalon(owner, req, now)], |salons|, other) == Fail(Rejected(NoPermission))
  {
  }

  /**
   * `createSalon`: after the checks, saves the salon with its defaults and
   * then one active service per requested service, in order.
   */
  method CreateSalon(st: Store, owner: UserId, req: CreateSalonRequest, now: Minutes) returns (r: Result<SalonId, Failure>)
    requires st.Valid()
    modifies st`salons, st`services
    ensures st.Valid()
    ensures CreateSalonCheck(old(st.users), owner, req).Fail? ==>
      r == Err(CreateSalonCheck(old(st.users), owner, req).error) &&
      st.salons == old(st.salons) && st.services == old(st.services)
    ensures CreateSalonCheck(old(st.users), owner, req).Pass? ==>
      r == Ok(|old(st.salons)|) &&
      st.salons == old(st.salons) + [NewSalon(owner, req, now)] &&
      st.services == old(st.services) + NewServices(|old(st.salons)|, Requested(req))
  {
    var check := CreateSalonCheck(st.users, owner, req);
    if check.Fail? {
      return Err(check.error);
    }
    var salon := |st.salons|;
    st.salons := st.salons + [NewSalon(owner, req, now)];
    var reqs := Requested(req);
    var services0 := st.services;
    var k := 0;
    while k < |reqs|
      invariant 0 <= k <= |reqs|
      invariant st.services == services0 + NewServices(salon, reqs[..k])
      invariant st.salons == old(st.salons) + [NewSalon(owner, req, now)]
    {
      assert reqs[..k + 1][..k] == reqs[..k];
      st.services := st.services + [NewService(salon, reqs[k])];
      k := k + 1;
    }
    assert reqs[..k] == reqs;
    GrowKeepsConsistent(st.users, old(st.salons), services0, st.barbers, st.bookings, st.queue,
                        st.salons, st.services, st.barbers);
    r := Ok(salon);
  }

  // ----- Changing a salon -----

  /** The salon with every field the request gives replaced, and no other. */
  function Patched(s: Salon, req: UpdateSalonRequest): (r: Salon)
    ensures r.(name := s.name, description := s.description, address := s.address, phone := s.phone,
               openingTime := s.openingTime, closingTime := s.closingTime,
               onlineBookingPercentage := s.onlineBookingPercentage) == s
    ensures r.name == req.name.GetOr(s.name)
    ensures r.description == if req.description.Some? then req.description else s.description
    ensures r.address == req.address.GetOr(s.address)
    ensures r.phone == req.phone.GetOr(s.phone)
    ensures r.openingTime == req.openingTime.GetOr(s.openingTime)
    ensures r.closingTime == req.closingTime.GetOr(s.closingTime)
    ensures r.onlineBookingPercentage == req.onlineBookingPercentage.GetOr(s.onlineBookingPercentage)
  {
    s.(name := req.name.GetOr(s.name),
       description := if req.description.Some? then req.description else s.description,
       address := req.address.GetOr(s.address),
       phone := req.phone.GetOr(s.phone),
       openingTime := req.openingTime.GetOr(s.openingTime),
       closingTime := req.closingTime.GetOr(s.closingTime),
       onlineBookingPercentage := req.onlineBookingPercentage.GetOr(s.onlineBookingPercentage))
  }

  /** An empty patch changes nothing, and applying a patch twice is applying it once. */
  lemma PatchLaws(s: Salon, req: UpdateSalonRequest)
    ensures Patched(s, UpdateSalonRequest(None, None, None, None, None, None, None)) == s
    ensures Patched(Patched(s, req), req) == Patched(s, req)
    ensures Patched(s, req).owner == s.owner && Patched(s, req).rating == s.rating
  {
  }

  /** `updateSalon`: only the owner may patch the salon. */
  method UpdateSalon(st: Store, salon: SalonId, req: UpdateSalonRequest, owner: UserId) returns (out: Outcome<Failure>)
    requires st.Valid()
    modifies st`salons
    ensures st.Valid()
    ensures out == OwnerCheck(old(st.salons), salon, owner)
    ensures out.Fail? ==> st.salons == old(st.salons)
    ensures out.Pass? ==> st.salons == old(st.salons)[salon := Patched(old(st.salons)[salon], req)]
  {
    out := OwnerCheck(st.salons, salon, owner);
    if out.Fail? {
      return;
    }
    st.salons := st.salons[salon := Patched(st.salons[salon], req)];
    GrowKeepsConsistent(st.users, old(st.salons), st.services, st.barbers, st.bookings, st.queue,
                        st.salons, st.services, st.barbers);
  }

  /** `toggleSalonStatus`: sets the open flag of an existing salon, whoever asks. */
  method ToggleSalonStatus(st: Store, salon: SalonId, isOpen: bool) returns (out: Outcome<Failure>)
    requires st.Valid()
    modifies st`salons
    ensures st.Valid()
    ensures out.Fail? <==> salon >= |old(st.salons)|
    ensures out.Fail? ==> out.error == NotFound(MissingSalon) && st.salons == old(st.salons)
    ensures out.Pass? ==> st.salons == old(st.salons)[salon := old(st.salons)[salon].(isOpen := isOpen)]
  {
    if salon >= |st.salons| {
      return Fail(NotFound(MissingSalon));
    }
    st.salons := st.salons[salon := st.salons[salon].(isOpen := isOpen)];
    GrowKeepsConsistent(st.users, old(st.salons), st.services, st.barbers, st.bookings, st.queue,
                        st.salons, st.services, st.barbers);
    out := Pass;
  }

  /**
   * `addService`: the owner adds one active service to the salon. A request
   * without a category is saved and then fails when the response reads the
   * category's name, so the transaction rolls back and nothing is added.
   */
  method AddService(st: Store, salon: SalonId, req: ServiceRequest, owner: UserId) returns (r: Result<ServiceId, Failure>)
    requires st.Valid()
    modifies st`services
    ensures st.Valid()
    ensures OwnerCheck(st.salons, salon, owner).Fail? ==>
      r == Err(OwnerCheck(st.salons, salon, owner).error) && st.services == old(st.services)
    ensures OwnerCheck(st.salons, salon, owner).Pass? && req.category.None? ==>
      r == Err(NullValue) && st.services == old(st.services)
    ensures OwnerCheck(st.salons, salon, owner).Pass? && req.category.Some? ==>
      r == Ok(|old(st.services)|) && st.services == old(st.services) + [NewService(salon, req)]
  {
    var check := OwnerCheck(st.salons, salon, owner);
    if check.Fail? {
      return Err(check.error);
    }
    if req.category.None? {
      return Err(NullValue);
    }
    var id := |st.services|;
    st.services := st.services + [NewService(salon, req)];
    GrowKeepsConsistent(st.users, st.salons, old(st.services), st.barbers, st.bookings, st.queue,
                        st.salons, st.services, st.barbers);
    r := Ok(id);
  }

  /** A barber of `salon` as requested: no account, no rating, no services yet, available. */
  function NewBarber(salon: SalonId, req: BarberRequest): (r: Barber)
    ensures r.user.None? && r.rating == 0.0 && r.totalServices == 0
    ensures BarberRepository.IsAvailableAt(r, salon)
    ensures r.name == req.name && r.phone == req.phone
  {
    Barber(None, salon, req.name, req.phone, req.specialization, req.experienceYears, 0.0, 0, true)
  }

  /**
   * A barber just added is available, so the salon has a barber to assign,
   * and one with no more services behind them than the new one.
   */
  lemma NewBarberCanBeAssigned(barbers: seq<Barber>, salon: SalonId, req: BarberRequest)
    ensures var r := BookingService.AssignBarber(barbers + [NewBarber(salon, req)], salon);
      r.Some? && (barbers + [NewBarber(salon, req)])[r.value].totalServices <= 0
  {
    var bs := barbers + [NewBarber(salon, req)];
    assert BarberRepository.IsAvailableAt(bs[|barbers|], salon);
  }

  /** `addBarber`: the owner adds one barber to the salon. */
  method AddBarber(st: Store, salon: SalonId, req: BarberRequest, owner: UserId) returns (r: Result<BarberId, Failure>)
    requires st.Valid()
    modifies st`barbers
    ensures st.Valid()
    ensures OwnerCheck(st.salons, salon, owner).Fail? ==>
      r == Err(OwnerCheck(st.salons, salon, owner).error) && st.barbers == old(st.barbers)
    ensures OwnerCheck(st.salons, salon, owner).Pass? ==>
      r == Ok(|old(st.barbers)|) && st.barbers == old(st.barbers) + [NewBarber(salon, req)]
  {
    var check := OwnerCheck(st.salons, salon, owner);
    if check.Fail? {
      return Err(check.error);
    }
    var id := |st.barbers|;
    st.barbers := st.barbers + [NewBarber(salon, req)];
    GrowKeepsConsistent(st.users, st.salons, st.services, old(st.barbers), st.bookings, st.queue,
                        st.salons, st.services, st.barbers);
    r := Ok(id);
  }

  // ----- Availability -----

  /**
   * `calculateNextAvailableTime`: `now` when nobody waits, otherwise `now`
   * plus the durations of the waiting bookings; the same instant the booking
   * service estimates for a new booking.
   */
  function NextAvailableTime(q: seq<QueueEntry>, bs: seq<Booking>, salon: SalonId, now: Minutes): (r: Minutes)
    ensures r == BookingService.NextAvailableSlot(q, bs, salon, now)
  {
    var waiting := QueueRepository.BySalonAndStatus(q, salon, Waiting);
    SumOfSelect(|q|, QueueRepository.WithStatus(q, salon, Waiting), QueueRepository.PositionKey(q),
                BookingService.BookedDuration(q, bs));
    if waiting == [] then now else now + Sum(waiting, BookingService.BookedDuration(q, bs))
  }

  datatype Availability = Availability(
    salon: SalonId,
    isOpen: bool,
    acceptsOnlineBooking: bool,
    currentQueue: nat,
    nextAvailableTime: Minutes,
    estimatedWaitMinutes: int,
    availableBarbers: nat)

  /**
   * `getAvailability`: the salon's live figures; the wait until the next
   * free slot is never reported negative.
   */
  function GetAvailability(salons: seq<Salon>, barbers: seq<Barber>, q: seq<QueueEntry>, bs: seq<Booking>,
                           salon: SalonId, now: Minutes, clock: TimeOfDay): (r: Result<Availability, Failure>)
    ensures r.Err? <==> salon >= |salons|
    ensures r.Err? ==> r.error == NotFound(MissingSalon)
    ensures r.Ok? ==> r.value.estimatedWaitMinutes >= 0
    ensures r.Ok? ==> r.value.estimatedWaitMinutes >= r.value.nextAvailableTime - now
    ensures r.Ok? && QueueService.DurationsNonNegative(bs) ==>
      r.value.estimatedWaitMinutes == r.value.nextAvailableTime - now
    ensures r.Ok? ==> r.value.currentQueue == QueueRepository.CountWaiting(q, salon)
    ensures r.Ok? ==> r.value.salon == salon && r.value.nextAvailableTime == BookingService.NextAvailableSlot(q, bs, salon, now)
    ensures r.Ok? ==> r.value.isOpen == Entities.IsOpenNow(salons[salon], clock)
    ensures r.Ok? ==> r.value.acceptsOnlineBooking == salons[salon].acceptsOnlineBooking
    ensures r.Ok? ==>
      r.value.availableBarbers == |set i | 0 <= i < |barbers| && BarberRepository.IsAvailableAt(barbers[i], salon)|
  {
    if salon >= |salons| then Err(NotFound(MissingSalon))
    else
      var next := NextAvailableTime(q, bs, salon, now);
      BookingService.WaitingDurationsNonNegative(q, bs, salon);
      var wait := next - now;
      Ok(Availability(salon, Entities.IsOpenNow(salons[salon], clock), salons[salon].acceptsOnlineBooking,
                      QueueRepository.CountWaiting(q, salon), next, if wait < 0 then 0 else wait,
                      |BarberRepository.AvailableBySalon(barbers, salon)|))
  }

  // ----- Search -----

  /** `String.trim`, leading half: drops the characters up to and including U+0020 at the front. */
  function TrimStart(s: string): (r: string)
    ensures |r| <= |s| && r == s[|s| - |r|..]
    ensures r == [] || r[0] > ' '
    ensures forall i :: 0 <= i < |s| - |r| ==> s[i] <= ' '
  {
    if s != [] && s[0] <= ' ' then TrimStart(s[1..]) else s
  }

  /** `String.trim`, trailing half: drops the characters up to and including U+0020 at the back. */
  function TrimEnd(s: string): (r: string)
    ensures |r| <= |s| && r == s[..|r|]
    ensures r == [] || r[|r| - 1] > ' '
    ensures forall i :: |r| <= i < |s| ==> s[i] <= ' '
  {
    if s != [] && s[|s| - 1] <= ' ' then TrimEnd(s[..|s| - 1]) else s
  }

  /** `String.trim().isEmpty()`: every character is a space or a control character. */
  predicate IsBlank(s: string)
    ensures IsBlank(s) <==> TrimEnd(TrimStart(s)) == []
  {
    forall i :: 0 <= i < |s| ==> s[i] <= ' '
  }

  /** SQL `LOWER` on ASCII letters. */
  function Lower(s: string): (r: string)
    ensures |r| == |s|
    ensures forall i :: 0 <= i < |r| ==> !('A' <= r[i] <= 'Z')
    ensures forall i :: 0 <= i < |s| && !('A' <= s[i] <= 'Z') ==> r[i] == s[i]
  {
    seq(|s|, i requires 0 <= i < |s| => if 'A' <= s[i] <= 'Z' then (s[i] as int + 32) as char else s[i])
  }

  /** `LOWER(text) LIKE LOWER(CONCAT('%', keyword, '%'))`: the keyword occurs in the text, ignoring case. */
  predicate Mentions(text: string, keyword: string) {
    var t, k := Lower(text), Lower(keyword);
    exists i: nat | i <= |t| :: OccursAt(t, k, i)
  }

  /** `k` occurs in `t` starting at index `i`. */
  predicate OccursAt(t: string, k: string, i: nat) {
    i + |k| <= |t| && t[i..i + |k|] == k
  }

  /**
   * `SalonRepository.searchSalons` as written: `AND` binds tighter than
   * `OR`, so a salon whose city mentions the keyword matches even when it
   * is closed.
   */
  predicate MatchesAsWritten(s: Salon, keyword: string) {
    (s.isOpen && Mentions(s.name, keyword)) || Mentions(s.city, keyword)
  }

  /** The search as evidently meant: an open salon whose name or city mentions the keyword. */
  predicate Matches(s: Salon, keyword: string) {
    s.isOpen && (Mentions(s.name, keyword) || Mentions(s.city, keyword))
  }

  /** A closed salon in a city named after the keyword is found by the query as written, not as meant. */
  lemma ClosedSalonFoundByCity(s: Salon, keyword: string)
    requires !s.isOpen && s.city == keyword
    ensures MatchesAsWritten(s, keyword)
    ensures !Matches(s, keyword)
  {
    var t := Lower(s.city);
    assert t[0..0 + |t|] == t;
    assert OccursAt(t, Lower(keyword), 0);
  }

  /**
   * `searchSalons`: every open salon when the keyword is missing or blank,
   * otherwise the open salons whose name or city mentions it; in table order.
   */
  function SearchSalons(salons: seq<Salon>, keyword: Option<string>): (r: seq<SalonId>)
    ensures forall k :: 0 <= k < |r| ==> r[k] < |salons| && salons[r[k]].isOpen
    ensures keyword.None? || IsBlank(keyword.value) ==>
      forall i :: 0 <= i < |salons| ==> (i in r <==> salons[i].isOpen)
    ensures keyword.Some? && !IsBlank(keyword.value) ==>
      forall i :: 0 <= i < |salons| ==> (i in r <==> Matches(salons[i], keyword.value))
    ensures Increasing(r)
  {
    var blank := keyword.None? || IsBlank(keyword.value);
    var p := (i: nat) => i < |salons| && if blank then salons[i].isOpen else Matches(salons[i], keyword.value);
    FilterIncreasing(|salons|, p);
    Filter(|salons|, p)
  }
}

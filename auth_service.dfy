/**
 * Registration, the checks made before a login is authenticated, account
 * verification, password changes and the availability of phone numbers and
 * email addresses.
 */
module AuthService {
  import opened Wrappers
  import opened Domain
  import opened Store
  import opened UserRepository
  import Entities

  /** The shortest password accepted. */
  const MinPasswordLength := 6

  datatype SignUpRequest = SignUpRequest(
    phone: string,
    email: Option<string>,
    password: Option<string>,
    fullName: string,
    role: Option<string>)

  // ----- Passwords -----

  predicate IsDigit(c: char) {
    '0' <= c <= '9'
  }

  /** The characters a regular-expression `.` does not match. */
  predicate IsLineTerminator(c: char) {
    c == '\n' || c == '\r' || c == '\U{85}' || c == '\U{2028}' || c == '\U{2029}'
  }

  /** No character of `s` is a line terminator, so `.*` matches all of it. */
  predicate NoLineBreak(s: string) {
    forall i :: 0 <= i < |s| ==> !IsLineTerminator(s[i])
  }

  /**
   * `password.matches(".*[0-9].*")`: a digit, and no line terminator for `.`
   * to stumble on. The contract is the pattern read literally: the whole
   * text splits into a run `.*` matches, a digit, and another such run.
   */
  predicate HasDigit(pw: string)
    ensures HasDigit(pw) <==>
      exists i :: 0 <= i < |pw| && IsDigit(pw[i]) && NoLineBreak(pw[..i]) && NoLineBreak(pw[i + 1..])
  {
    (exists i :: 0 <= i < |pw| && IsDigit(pw[i])) && forall i :: 0 <= i < |pw| ==> !IsLineTerminator(pw[i])
  }

  /** `validatePassword`: at least six characters, one of them a digit. */
  function ValidatePassword(pw: Option<string>): (r: Outcome<Failure>)
    ensures r.Pass? <==> pw.Some? && |pw.value| >= 6 && HasDigit(pw.value)
    ensures pw.None? || |pw.value| < 6 ==> r == Fail(Rejected(PasswordTooShort))
    ensures pw.Some? && |pw.value| >= 6 && !HasDigit(pw.value) ==> r == Fail(Rejected(PasswordNeedsDigit))
  {
    if pw.None? || |pw.value| < MinPasswordLength then Fail(Rejected(PasswordTooShort))
    else if !HasDigit(pw.value) then Fail(Rejected(PasswordNeedsDigit))
    else Pass
  }

  // ----- Roles -----

  /** `toUpperCase` on ASCII letters. */
  function Upper(s: string): (r: string)
    ensures |r| == |s|
    ensures forall i :: 0 <= i < |r| ==> !('a' <= r[i] <= 'z')
    ensures forall i :: 0 <= i < |s| && !('a' <= s[i] <= 'z') ==> r[i] == s[i]
  {
    seq(|s|, i requires 0 <= i < |s| => if 'a' <= s[i] <= 'z' then (s[i] as int - 32) as char else s[i])
  }

  /**
   * `determineUserRole`: the role named by the request, ignoring case;
   * a missing, empty or unknown name, and `ADMIN`, give a customer.
   */
  function DetermineUserRole(requested: Option<string>): (r: UserRole)
    ensures r != AdminRole
    ensures r == BarberRole <==> requested.Some? && Upper(requested.value) == "BARBER"
    ensures r == SalonOwnerRole <==> requested.Some? && Upper(requested.value) == "SALON_OWNER"
  {
    if requested.None? || requested.value == "" then CustomerRole
    else
      var name := Upper(requested.value);
      if name == "BARBER" then BarberRole
      else if name == "SALON_OWNER" then SalonOwnerRole
      else CustomerRole
  }

  /** Nobody can register as an administrator, whatever case they write it in. */
  lemma NoSelfMadeAdmins(requested: string)
    requires Upper(requested) == "ADMIN"
    ensures DetermineUserRole(Some(requested)) == CustomerRole
  {
  }

  // ----- Availability -----

  /** `isPhoneAvailable`. */
  function IsPhoneAvailable(users: seq<User>, phone: string): (r: bool)
    ensures r <==> forall i :: 0 <= i < |users| ==> users[i].phone != phone
  {
    FindByPhone(users, phone).None?
  }

  /** `isEmailAvailable`: a missing or empty address is always available. */
  function IsEmailAvailable(users: seq<User>, email: Option<string>): (r: bool)
    ensures r <==> email.None? || email.value == "" || forall i :: 0 <= i < |users| ==> users[i].email != email
  {
    email.None? || email.value == "" || FindByEmail(users, email.value).None?
  }

  // ----- Registration -----

  /** The checks of `registerUser`, in the order it makes them. */
  function RegisterCheck(users: seq<User>, req: SignUpRequest): (r: Outcome<Failure>)
    ensures r.Pass? <==>
      IsPhoneAvailable(users, req.phone) &&
      (req.email.Some? ==> forall i :: 0 <= i < |users| ==> users[i].email != req.email) &&
      ValidatePassword(req.password).Pass?
    ensures !IsPhoneAvailable(users, req.phone) ==> r == Fail(Rejected(PhoneRegistered))
  {
    if FindByPhone(users, req.phone).Some? then Fail(Rejected(PhoneRegistered))
    else if req.email.Some? && FindByEmail(users, req.email.value).Some? then Fail(Rejected(EmailRegistered))
    else ValidatePassword(req.password)
  }

  /**
   * Available phone and email let registration through to the password
   * rules; an empty address is the exception, as it is reported available
   * but still checked against the stored ones.
   */
  lemma AvailableMeansRegistrable(users: seq<User>, req: SignUpRequest)
    requires IsPhoneAvailable(users, req.phone) && IsEmailAvailable(users, req.email)
    requires req.email != Some("")
    ensures RegisterCheck(users, req) == ValidatePassword(req.password)
  {
  }

  /** The user `registerUser` saves: unverified, active, with zeroed counters and an encoded password. */
  function NewUser(req: SignUpRequest): (r: User)
    requires req.password.Some?
    ensures r.phone == req.phone && r.email == req.email && r.fullName == req.fullName
    ensures Matches(req.password.value, r.password)
    ensures r.role == DetermineUserRole(req.role) && r.noShowCount == Some(0) && r.totalBookings == Some(0)
    ensures Entities.IsBlacklisted(r) == Ok(false)
    ensures Entities.IsAccountNonLocked(r) == Ok(true) && Entities.IsEnabled(r) == Ok(false)
  {
    User(req.phone, req.email, Encoded(req.password.value), req.fullName, DetermineUserRole(req.role),
         None, false, Some(true), Some(0), Some(0))
  }

  /**
   * A registered user is found by their phone, which is no longer
   * available, and registering that phone again fails.
   */
  lemma RegisteredIsKnown(users: seq<User>, req: SignUpRequest, again: SignUpRequest)
    requires RegisterCheck(users, req).Pass?
    requires again.phone == req.phone
    ensures var users' := users + [NewUser(req)];
      FindByPhone(users', req.phone) == Some(|users|) && !IsPhoneAvailable(users', req.phone) &&
      RegisterCheck(users', again) == Fail(Rejected(PhoneRegistered))
  {
    var users' := users + [NewUser(req)];
    assert users'[|users|].phone == req.phone;
    assert forall i :: 0 <= i < |users| ==> users'[i] == users[i];
  }

  /** Registration keeps email addresses unique. */
  lemma RegisterKeepsEmailsUnique(users: seq<User>, req: SignUpRequest)
    requires EmailsUnique(users) && RegisterCheck(users, req).Pass?
    ensures EmailsUnique(users + [NewUser(req)])
  {
    var users' := users + [NewUser(req)];
    forall i, j | 0 <= i < j < |users'| && users'[i].email.Some?
      ensures users'[i].email != users'[j].email
    {
      if j == |users| {
        assert users'[i] == users[i];
      } else {
        assert users'[i] == users[i] && users'[j] == users[j];
      }
    }
  }

  /** `registerUser`: after the checks, saves the new user. */
  method RegisterUser(st: Store, req: SignUpRequest) returns (r: Result<UserId, Failure>)
    requires st.Valid()
    modifies st`users
    ensures st.Valid()
    ensures RegisterCheck(old(st.users), req).Fail? ==>
      r == Err(RegisterCheck(old(st.users), req).error) && st.users == old(st.users)
    ensures RegisterCheck(old(st.users), req).Pass? ==>
      r == Ok(|old(st.users)|) && st.users == old(st.users) + [NewUser(req)]
  {
    var check := RegisterCheck(st.users, req);
    if check.Fail? {
      return Err(check.error);
    }
    var id := |st.users|;
    AddUserKeepsConsistent(st.users, st.salons, st.services, st.barbers, st.bookings, st.queue, NewUser(req));
    st.users := st.users + [NewUser(req)];
    r := Ok(id);
  }

  // ----- Login -----

  /**
   * The checks `loginUser` makes before authenticating: the phone is
   * registered and its account is active; an unset flag cannot be unboxed.
   */
  function LoginCheck(users: seq<User>, phone: string): (r: Result<UserId, Failure>)
    ensures r.Ok? ==> r.value < |users| && users[r.value].phone == phone && users[r.value].isActive == Some(true)
    ensures r == Err(Rejected(InvalidLogin)) <==> IsPhoneAvailable(users, phone)
    ensures r == Err(Rejected(AccountDeactivated)) <==>
      exists i :: 0 <= i < |users| && users[i].phone == phone && users[i].isActive == Some(false) &&
        FindByPhone(users, phone) == Some(i)
  {
    match FindByPhone(users, phone)
    case None => Err(Rejected(InvalidLogin))
    case Some(u) =>
      match Entities.IsAccountNonLocked(users[u])
      case Err(e) => Err(e)
      case Ok(active) => if active then Ok(u) else Err(Rejected(AccountDeactivated))
  }

  /** A user just registered passes the checks before authentication. */
  lemma RegisteredPassesLoginChecks(users: seq<User>, req: SignUpRequest)
    requires RegisterCheck(users, req).Pass?
    ensures LoginCheck(users + [NewUser(req)], req.phone) == Ok(|users|)
  {
    RegisteredIsKnown(users, req, req);
  }

  // ----- Account maintenance -----

  /** `verifyAccount`: marks the user verified; the code is not checked. */
  method VerifyAccount(st: Store, user: UserId) returns (out: Outcome<Failure>)
    requires st.Valid()
    modifies st`users
    ensures st.Valid()
    ensures out.Fail? <==> user >= |old(st.users)|
    ensures out.Fail? ==> out.error == Rejected(UnknownUser) && st.users == old(st.users)
    ensures out.Pass? ==> st.users == old(st.users)[user := old(st.users)[user].(isVerified := true)]
    ensures out.Pass? ==> Entities.IsEnabled(st.users[user]) == Entities.IsAccountNonLocked(old(st.users)[user])
  {
    if user >= |st.users| {
      return Fail(Rejected(UnknownUser));
    }
    var u := st.users[user].(isVerified := true);
    UpdateUserKeepsConsistent(st.users, st.salons, st.services, st.barbers, st.bookings, st.queue, user, u);
    st.users := st.users[user := u];
    out := Pass;
  }

  /** The checks of `changePassword`, in the order it makes them. */
  function ChangePasswordCheck(users: seq<User>, user: UserId, oldPassword: string, newPassword: Option<string>): (r: Outcome<Failure>)
    ensures r.Pass? <==>
      user < |users| && Matches(oldPassword, users[user].password) && ValidatePassword(newPassword).Pass?
    ensures user >= |users| ==> r == Fail(Rejected(UnknownUser))
    ensures user < |users| && !Matches(oldPassword, users[user].password) ==> r == Fail(Rejected(WrongPassword))
  {
    if user >= |users| then Fail(Rejected(UnknownUser))
    else if !Matches(oldPassword, users[user].password) then Fail(Rejected(WrongPassword))
    else ValidatePassword(newPassword)
  }

  /**
   * `changePassword`: after the checks, stores the encoded new password,
   * which then matches, while the old one matches only if it was the same.
   */
  method ChangePassword(st: Store, user: UserId, oldPassword: string, newPassword: Option<string>)
    returns (out: Outcome<Failure>)
    requires st.Valid()
    modifies st`users
    ensures st.Valid()
    ensures out == ChangePasswordCheck(old(st.users), user, oldPassword, newPassword)
    ensures out.Fail? ==> st.users == old(st.users)
    ensures out.Pass? ==>
      st.users == old(st.users)[user := old(st.users)[user].(password := Encoded(newPassword.value))]
    ensures out.Pass? ==>
      Matches(newPassword.value, st.users[user].password) &&
      (Matches(oldPassword, st.users[user].password) <==> oldPassword == newPassword.value)
  {
    out := ChangePasswordCheck(st.users, user, oldPassword, newPassword);
    if out.Fail? {
      return;
    }
    var u := st.users[user].(password := Encoded(newPassword.value));
    UpdateUserKeepsConsistent(st.users, st.salons, st.services, st.barbers, st.bookings, st.queue, user, u);
    st.users := st.users[user := u];
  }

  /** `requestPasswordReset`: only checks that an account has the phone number. */
  function RequestPasswordReset(users: seq<User>, phone: string): (r: Outcome<Failure>)
    ensures r.Pass? <==> !IsPhoneAvailable(users, phone)
    ensures r.Fail? ==> r.error == Rejected(UnknownUser)
  {
    if FindByPhone(users, phone).None? then Fail(Rejected(UnknownUser)) else Pass
  }
}

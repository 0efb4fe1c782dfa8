/** A user's own account: profile edits, password changes and deactivation. */
module UserService {
  import opened Wrappers
  import opened Domain
  import opened Store
  import opened UserRepository
  import AuthService
  import Entities

  /** The profile fields a user may change; `None` leaves a field alone. */
  datatype UpdateProfileRequest = UpdateProfileRequest(
    fullName: Option<string>,
    email: Option<string>,
    profileImageUrl: Option<string>)

  /** A request value that replaces a stored one: given and not empty. */
  predicate Given(v: Option<string>) {
    v.Some? && v.value != ""
  }

  /** The checks of `updateProfile`: the user exists, and a new email is nobody else's. */
  function UpdateProfileCheck(users: seq<User>, user: UserId, req: UpdateProfileRequest): (r: Outcome<Failure>)
    ensures r.Pass? <==>
      user < |users| &&
      (Given(req.email) && users[user].email != req.email ==>
        forall i :: 0 <= i < |users| ==> users[i].email != req.email)
    ensures user >= |users| ==> r == Fail(NotFound(MissingUser))
    ensures r.Fail? && user < |users| ==> r == Fail(Rejected(EmailInUse))
  {
    if user >= |users| then Fail(NotFound(MissingUser))
    else if Given(req.email) && FindByEmail(users, req.email.value).Some? && req.email != users[user].email then
      Fail(Rejected(EmailInUse))
    else Pass
  }

  /**
   * The edited profile: a given name and email replace the stored ones, an
   * image address replaces it even when empty, and nothing else changes.
   */
  function Edited(u: User, req: UpdateProfileRequest): (r: User)
    ensures r.(fullName := u.fullName, email := u.email, profileImageUrl := u.profileImageUrl) == u
    ensures r.fullName == if Given(req.fullName) then req.fullName.value else u.fullName
    ensures r.email == if Given(req.email) then req.email else u.email
    ensures r.profileImageUrl == if req.profileImageUrl.Some? then req.profileImageUrl else u.profileImageUrl
  {
    u.(fullName := if Given(req.fullName) then req.fullName.value else u.fullName,
       email := if Given(req.email) then req.email else u.email,
       profileImageUrl := if req.profileImageUrl.Some? then req.profileImageUrl else u.profileImageUrl)
  }

  /** Editing twice with the same request is editing once. */
  lemma EditIdempotent(u: User, req: UpdateProfileRequest)
    ensures Edited(Edited(u, req), req) == Edited(u, req)
  {
  }

  /** An accepted profile edit keeps email addresses unique. */
  lemma EditKeepsEmailsUnique(users: seq<User>, user: UserId, req: UpdateProfileRequest)
    requires EmailsUnique(users) && UpdateProfileCheck(users, user, req).Pass?
    ensures EmailsUnique(users[user := Edited(users[user], req)])
  {
    var users' := users[user := Edited(users[user], req)];
    forall i, j | 0 <= i < j < |users'| && users'[i].email.Some?
      ensures users'[i].email != users'[j].email
    {
      if i != user && j != user {
        assert users'[i] == users[i] && users'[j] == users[j];
      } else if Given(req.email) && users[user].email != req.email {
        if i == user {
          assert users'[j] == users[j];
        } else {
          assert users'[i] == users[i];
        }
      } else if i == user {
        assert users'[i].email == users[i].email && users'[j] == users[j];
      } else {
        assert users'[j].email == users[j].email && users'[i] == users[i];
      }
    }
  }

  /** `updateProfile`: after the checks, saves the edited profile. */
  method UpdateProfile(st: Store, user: UserId, req: UpdateProfileRequest) returns (out: Outcome<Failure>)
    requires st.Valid()
    modifies st`users
    ensures st.Valid()
    ensures out == UpdateProfileCheck(old(st.users), user, req)
    ensures out.Fail? ==> st.users == old(st.users)
    ensures out.Pass? ==> st.users == old(st.users)[user := Edited(old(st.users)[user], req)]
  {
    out := UpdateProfileCheck(st.users, user, req);
    if out.Fail? {
      return;
    }
    var u := Edited(st.users[user], req);
    UpdateUserKeepsConsistent(st.users, st.salons, st.services, st.barbers, st.bookings, st.queue, user, u);
    st.users := st.users[user := u];
  }

  /**
   * The checks of this service's `changePassword`: only the length of the
   * new password is checked, not that it has a digit.
   */
  function ChangePasswordCheck(users: seq<User>, user: UserId, oldPassword: string, newPassword: Option<string>): (r: Outcome<Failure>)
    ensures r.Pass? <==>
      user < |users| && Matches(oldPassword, users[user].password) &&
      newPassword.Some? && |newPassword.value| >= AuthService.MinPasswordLength
    ensures user >= |users| ==> r == Fail(NotFound(MissingUser))
    ensures user < |users| && !Matches(oldPassword, users[user].password) ==> r == Fail(Rejected(WrongPassword))
  {
    if user >= |users| then Fail(NotFound(MissingUser))
    else if !Matches(oldPassword, users[user].password) then Fail(Rejected(WrongPassword))
    else if newPassword.None? || |newPassword.value| < AuthService.MinPasswordLength then Fail(Rejected(PasswordTooShort))
    else Pass
  }

  /**
   * Every password the authentication service accepts is accepted here too,
   * but not the other way round: a digit-free password gets through.
   */
  lemma PasswordRulesDiffer(users: seq<User>, user: UserId, oldPassword: string, newPassword: Option<string>)
    ensures AuthService.ChangePasswordCheck(users, user, oldPassword, newPassword).Pass? ==>
      ChangePasswordCheck(users, user, oldPassword, newPassword).Pass?
    ensures user < |users| && Matches(oldPassword, users[user].password) && newPassword == Some("abcdef") ==>
      ChangePasswordCheck(users, user, oldPassword, newPassword).Pass? &&
      AuthService.ChangePasswordCheck(users, user, oldPassword, newPassword) == Fail(Rejected(PasswordNeedsDigit))
  {
    if newPassword == Some("abcdef") {
      assert !AuthService.HasDigit("abcdef") by {
        assert forall i :: 0 <= i < 6 ==> !AuthService.IsDigit("abcdef"[i]);
      }
    }
  }

  /** `changePassword`: after the checks, stores the encoded new password. */
  method ChangePassword(st: Store, user: UserId, oldPassword: string, newPassword: Option<string>)
    returns (out: Outcome<Failure>)
    requires st.Valid()
    modifies st`users
    ensures st.Valid()
    ensures out == ChangePasswordCheck(old(st.users), user, oldPassword, newPassword)
    ensures out.Fail? ==> st.users == old(st.users)
    ensures out.Pass? ==>
      st.users == old(st.users)[user := old(st.users)[user].(password := Encoded(newPassword.value))]
  {
    out := ChangePasswordCheck(st.users, user, oldPassword, newPassword);
    if out.Fail? {
      return;
    }
    var u := st.users[user].(password := Encoded(newPassword.value));
    UpdateUserKeepsConsistent(st.users, st.salons, st.services, st.barbers, st.bookings, st.queue, user, u);
    st.users := st.users[user := u];
  }

  /** `deactivateAccount`: the account is made inactive, which bars its logins. */
  method DeactivateAccount(st: Store, user: UserId) returns (out: Outcome<Failure>)
    requires st.Valid()
    modifies st`users
    ensures st.Valid()
    ensures out.Fail? <==> user >= |old(st.users)|
    ensures out.Fail? ==> out.error == NotFound(MissingUser) && st.users == old(st.users)
    ensures out.Pass? ==> st.users == old(st.users)[user := old(st.users)[user].(isActive := Some(false))]
    ensures out.Pass? ==>
      AuthService.LoginCheck(st.users, st.users[user].phone) == Err(Rejected(AccountDeactivated)) &&
      Entities.IsEnabled(st.users[user]) == Ok(false)
  {
    if user >= |st.users| {
      return Fail(NotFound(MissingUser));
    }
    var u := st.users[user].(isActive := Some(false));
    UpdateUserKeepsConsistent(st.users, st.salons, st.services, st.barbers, st.bookings, st.queue, user, u);
    st.users := st.users[user := u];
    DeactivatedCannotLogIn(st.users, user);
    out := Pass;
  }

  /** With phones unique, the phone of an inactive account finds that account and is refused. */
  lemma DeactivatedCannotLogIn(users: seq<User>, user: UserId)
    requires user < |users| && users[user].isActive == Some(false)
    requires PhonesUnique(users)
    ensures AuthService.LoginCheck(users, users[user].phone) == Err(Rejected(AccountDeactivated))
  {
  }
}

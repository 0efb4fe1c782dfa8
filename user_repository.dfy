/** The queries of the user table; a user is named by its index in `users`. */
module UserRepository {
  import opened Wrappers
  import opened Domain
  import opened Collections

  /** The first user `keep` holds for, if any. */
  function FirstWhere(users: seq<User>, keep: User -> bool): (r: Option<UserId>)
    ensures r.None? <==> forall i :: 0 <= i < |users| ==> !keep(users[i])
    ensures r.Some? ==> r.value < |users| && keep(users[r.value])
  {
    var p := (i: nat) => i < |users| && keep(users[i]);
    var r := First(|users|, p);
    assert r.None? ==> forall i :: 0 <= i < |users| ==> !keep(users[i]) by {
      if r.None? {
        forall i | 0 <= i < |users|
          ensures !keep(users[i])
        {
          assert !p(i);
        }
      }
    }
    r
  }

  /** `findByPhone`: the user registered with `phone`, if any. */
  function FindByPhone(users: seq<User>, phone: string): (r: Option<UserId>)
    ensures r.None? <==> forall i :: 0 <= i < |users| ==> users[i].phone != phone
    ensures r.Some? ==> r.value < |users| && users[r.value].phone == phone
  {
    FirstWhere(users, (u: User) => u.phone == phone)
  }

  /** `findByEmail`: the user registered with `email`, if any. */
  function FindByEmail(users: seq<User>, email: string): (r: Option<UserId>)
    ensures r.None? <==> forall i :: 0 <= i < |users| ==> users[i].email != Some(email)
    ensures r.Some? ==> r.value < |users| && users[r.value].email == Some(email)
  {
    FirstWhere(users, (u: User) => u.email == Some(email))
  }

  /** No two users share an email address. */
  predicate EmailsUnique(users: seq<User>) {
    forall i, j :: 0 <= i < j < |users| && users[i].email.Some? ==> users[i].email != users[j].email
  }
}

/** `UserService`: the profile of the signed-in user, read from the `users`
    path and kept in step with the authentication state. */
module Users {
  import opened Wire
  import opened Models
  import opened Store

  /** The guard chain of `fetchUser`: the profile under `users/userId` must
      be a dictionary with string `name`, `email` and `role`, and the role
      must be one the app knows. The user's id is the requested `userId`,
      whatever the record holds. */
  function DecodeUser(userId: string, v: Value): (r: Option<AppUser>)
    ensures r.Some? <==>
      && v.Dict? && StringField(v.fields, "name").Some? && StringField(v.fields, "email").Some?
      && StringField(v.fields, "role").Some? && ParseUserRole(StringField(v.fields, "role").value).Some?
    ensures r.Some? ==>
      && r.value.id == userId
      && v.fields["name"] == Str(r.value.name) && v.fields["email"] == Str(r.value.email)
      && v.fields["role"] == Str(r.value.role.RawValue())
  {
    if !v.Dict? then None
    else match (StringField(v.fields, "name"), StringField(v.fields, "email"), StringField(v.fields, "role"))
      case (Some(name), Some(email), Some(roleRaw)) =>
        (match ParseUserRole(roleRaw)
         case Some(role) => Some(AppUser(userId, name, email, role))
         case None => None)
      case _ => None
  }

  /** A profile record holding a user's name, email and role, as the rest of
      the app stores it. */
  function UserPayload(u: AppUser): Fields
  {
    map["name" := Str(u.name), "email" := Str(u.email), "role" := Str(u.role.RawValue())]
  }

  /** A stored profile is read back as the user it was stored for, and an
      `id` field in the record, whatever it holds, is ignored. */
  lemma DecodeUserPayload(u: AppUser, storedId: Value)
    ensures DecodeUser(u.id, Dict(UserPayload(u))) == Some(u)
    ensures DecodeUser(u.id, Dict(UserPayload(u)["id" := storedId])) == Some(u)
  {
    UserRoleRawValueRoundTrip(u.role);
    var f := UserPayload(u)["id" := storedId];
    assert StringField(f, "role") == Some(u.role.RawValue());
  }

  /** A profile whose role is not one of the three raw values is unreadable. */
  lemma UnknownRoleIsUnreadable(userId: string, fields: Fields)
    requires "role" in fields && fields["role"].Str?
    requires fields["role"].s != "admin" && fields["role"].s != "manager" && fields["role"].s != "employee"
    ensures DecodeUser(userId, Dict(fields)) == None
  {
  }

  class UserService {
    var currentUser: Option<AppUser>
    /** The `users` path. */
    const users: Collection

    constructor (users: Collection)
      ensures this.users == users && currentUser == None
    {
      this.users := users;
      currentUser := None;
    }

    /** `fetchUser(userId, completion:)`: `success` is what the completion
        receives. A readable profile becomes `currentUser`; otherwise
        `currentUser` stays as it was. */
    method FetchUser(userId: string) returns (success: bool)
      modifies this`currentUser
      ensures success <==> DecodeUser(userId, users.Child(userId)).Some?
      ensures success ==> currentUser == DecodeUser(userId, users.Child(userId)) && currentUser.value.id == userId
      ensures !success ==> currentUser == old(currentUser)
    {
      var snapshot := users.Child(userId);
      var user := DecodeUser(userId, snapshot);
      if user.None? {
        success := false;
        return;
      }
      currentUser := user;
      success := true;
    }

    /** The listener `setupAuthListener` installs, run for the state `auth`
        has just entered, with `signOutFailure` for what `signOut()` would
        throw: nobody signed in clears `currentUser`; a signed-in uid fetches
        its profile, and a profile that cannot be read signs the session out,
        which `try?` lets fail silently. */
    method AuthStateDidChange(auth: Auth, signOutFailure: Option<string>)
      modifies this`currentUser, auth`currentUser
      ensures old(auth.currentUser).None? ==> currentUser == None && auth.currentUser == None
      ensures old(auth.currentUser).Some? ==>
        var profile := DecodeUser(old(auth.currentUser).value.uid, users.Child(old(auth.currentUser).value.uid));
        if profile.Some? then currentUser == profile && auth.currentUser == old(auth.currentUser)
        else
          && currentUser == old(currentUser)
          && auth.currentUser == (if signOutFailure.None? then None else old(auth.currentUser))
    {
      if auth.currentUser.Some? {
        var success := FetchUser(auth.currentUser.value.uid);
        if !success {
          var _ := auth.SignOut(signOutFailure);
        }
      } else {
        currentUser := None;
      }
    }

    /** A sign-in whose profile cannot be read: the listener signs the
        session out; a sign-out that succeeds fires the listener again, and
        that second run clears `currentUser`, whatever it held before. A
        sign-out that fails changes no state, so the listener does not fire
        again and the stale profile stays cached. */
    method SignInWithUnreadableProfile(auth: Auth, signOutFailure: Option<string>)
      requires auth.currentUser.Some?
      requires DecodeUser(auth.currentUser.value.uid, users.Child(auth.currentUser.value.uid)).None?
      modifies this`currentUser, auth`currentUser
      ensures signOutFailure.None? ==> currentUser == None && auth.currentUser == None
      ensures signOutFailure.Some? ==> currentUser == old(currentUser) && auth.currentUser == old(auth.currentUser)
    {
      AuthStateDidChange(auth, signOutFailure);
      if auth.currentUser.None? {
        AuthStateDidChange(auth, None);
      }
    }

    /** `logout()`, with `failure` for what `signOut()` throws: the error is
        printed (returned here as `printed`) and the session stays. */
    method Logout(auth: Auth, failure: Option<string>) returns (printed: Option<string>)
      modifies auth`currentUser
      ensures printed == failure
      ensures auth.currentUser == if failure.None? then None else old(auth.currentUser)
    {
      printed := auth.SignOut(failure);
    }
  }
}

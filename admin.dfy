/** `AdminView`, `UserRowView` and `AddUserView`: the user search, the
    gates that keep an administrator from deleting or demoting themselves,
    deleting a user, and creating one. */
module Admin {
  import opened Wire
  import opened Models
  import opened Seqs
  import opened Text
  import opened Store
  import opened Users

  // ------------------------------------------------------------------
  // Search

  /** The search text occurs in the user's name or email, ignoring case. */
  predicate MatchesUser(u: AppUser, text: string)
  {
    CaseInsensitiveContains(u.name, text) || CaseInsensitiveContains(u.email, text)
  }

  /** `filteredUsers`: all users, in order, for an empty search text;
      otherwise exactly the matching users, in their order. */
  function FilteredUsers(users: seq<AppUser>, text: string): (r: seq<AppUser>)
    ensures text == [] ==> r == users
    ensures text != [] ==> IsSubsequence(r, users)
    ensures text != [] ==> forall u :: multiset(r)[u] == if MatchesUser(u, text) then multiset(users)[u] else 0
  {
    if text == [] then users else Filter(users, (u: AppUser) => MatchesUser(u, text))
  }

  /** A user whose name is typed in full, in any case, is found. */
  lemma UserFoundByName(users: seq<AppUser>, u: AppUser)
    requires u in users && u.name != []
    ensures u in FilteredUsers(users, u.name)
    ensures u in FilteredUsers(users, Lower(u.name))
  {
    TextContainsItself(u.name);
    SearchIgnoresCase(u.name, u.name);
    assert multiset(users)[u] > 0;
    assert multiset(FilteredUsers(users, u.name))[u] > 0;
    assert Lower(u.name) != [];
    assert multiset(FilteredUsers(users, Lower(u.name)))[u] > 0;
  }

  // ------------------------------------------------------------------
  // Self-protection gates

  /** The swipe-to-delete action is offered on a row unless it is the
      signed-in user's own (`user.id != currentUser?.id`). */
  predicate DeleteOffered(row: AppUser, currentUser: Option<AppUser>)
  {
    currentUser.None? || row.id != currentUser.value.id
  }

  /** The role picker of a row is disabled on the signed-in user's own row. */
  predicate RolePickerDisabled(row: AppUser, currentUser: Option<AppUser>)
  {
    currentUser.Some? && row.id == currentUser.value.id
  }

  /** A row offers deletion exactly when its role can be changed, and the
      signed-in user's own row offers neither, whatever the row's other
      fields say. */
  lemma OwnRowIsProtected(row: AppUser, currentUser: Option<AppUser>)
    ensures DeleteOffered(row, currentUser) <==> !RolePickerDisabled(row, currentUser)
    ensures currentUser.Some? && row.id == currentUser.value.id ==>
      !DeleteOffered(row, currentUser) && RolePickerDisabled(row, currentUser)
  {
  }

  // ------------------------------------------------------------------
  // Deleting a user

  /** The identities left after `deleteUser` as written, once both deletions
      succeed: the signed-in identity (`Auth.auth().currentUser`) is the one
      deleted, whichever user was meant. */
  function AccountsAfterDeleteAsWritten(accounts: set<string>, session: Option<Session>, userId: string): set<string>
  {
    if session.Some? then accounts - {session.value.uid} else accounts
  }

  /** The identities left after deleting `userId` as evidently intended. */
  function AccountsAfterDelete(accounts: set<string>, userId: string): set<string>
  {
    accounts - {userId}
  }

  /** As written, an administrator deleting another user removes their own
      identity and leaves the target's. */
  lemma AsWrittenDeleteRemovesAdmin(accounts: set<string>, admin: Session, userId: string)
    requires admin.uid in accounts && userId in accounts && userId != admin.uid
    ensures userId in AccountsAfterDeleteAsWritten(accounts, Some(admin), userId)
    ensures admin.uid !in AccountsAfterDeleteAsWritten(accounts, Some(admin), userId)
  {
  }

  /** As intended, the target's identity is gone and every other one stays. */
  lemma DeleteRemovesTarget(accounts: set<string>, userId: string)
    ensures userId !in AccountsAfterDelete(accounts, userId)
    ensures forall uid :: uid in accounts && uid != userId ==> uid in AccountsAfterDelete(accounts, userId)
  {
  }

  const DeleteProfileFailed := "Ошибка удаления пользователя: "
  const DeleteIdentityFailed := "Ошибка удаления аутентификационных данных: "

  class AdminView {
    var searchText: string
    var errorMessage: string
    /** The `users` path. */
    const users: Collection

    constructor (users: Collection)
      ensures this.users == users && searchText == "" && errorMessage == ""
    {
      this.users := users;
      searchText := "";
      errorMessage := "";
    }

    /** `deleteUser(_:)` as written, with `profileFailure` and `authFailure`
        for the completion errors of the two deletions: the profile goes
        first; only if that succeeds is an identity deleted, and it is the
        signed-in one. */
    method DeleteUser(userId: string, auth: Auth, profileFailure: Option<string>, authFailure: Option<string>)
      modifies users, auth, this`errorMessage
      ensures profileFailure.Some? ==>
        && users.children == old(users.children) && errorMessage == DeleteProfileFailed + profileFailure.value
        && auth.accounts == old(auth.accounts) && auth.currentUser == old(auth.currentUser)
      ensures profileFailure.None? ==> users.children == old(users.children) - {userId}
      ensures profileFailure.None? && (old(auth.currentUser).None? || authFailure.None?) ==> errorMessage == old(errorMessage)
      ensures profileFailure.None? && old(auth.currentUser).Some? && authFailure.Some? ==>
        && errorMessage == DeleteIdentityFailed + authFailure.value
        && auth.accounts == old(auth.accounts) && auth.currentUser == old(auth.currentUser)
      ensures profileFailure.None? && (old(auth.currentUser).None? || authFailure.None?) ==>
        && auth.accounts == AccountsAfterDeleteAsWritten(old(auth.accounts), old(auth.currentUser), userId)
        && auth.currentUser == None
    {
      var error := users.RemoveValue(userId, profileFailure);
      if error.Some? {
        errorMessage := DeleteProfileFailed + error.value;
        return;
      }
      var authError := auth.DeleteCurrentUser(authFailure);
      if authError.Some? {
        errorMessage := DeleteIdentityFailed + authError.value;
      }
    }

    /** `deleteUser(_:)` as evidently intended: the same order and messages,
        but the identity deleted is the target's, and the administrator
        stays signed in unless they are the target. */
    method DeleteUserCorrected(userId: string, auth: Auth, profileFailure: Option<string>, authFailure: Option<string>)
      modifies users, auth, this`errorMessage
      ensures profileFailure.Some? ==>
        && users.children == old(users.children) && errorMessage == DeleteProfileFailed + profileFailure.value
        && auth.accounts == old(auth.accounts) && auth.currentUser == old(auth.currentUser)
      ensures profileFailure.None? ==> users.children == old(users.children) - {userId}
      ensures profileFailure.None? && authFailure.Some? ==>
        && errorMessage == DeleteIdentityFailed + authFailure.value
        && auth.accounts == old(auth.accounts) && auth.currentUser == old(auth.currentUser)
      ensures profileFailure.None? && authFailure.None? ==>
        && errorMessage == old(errorMessage)
        && auth.accounts == AccountsAfterDelete(old(auth.accounts), userId)
        && (old(auth.currentUser).Some? && old(auth.currentUser).value.uid != userId ==> auth.currentUser == old(auth.currentUser))
    {
      var error := users.RemoveValue(userId, profileFailure);
      if error.Some? {
        errorMessage := DeleteProfileFailed + error.value;
        return;
      }
      var authError := auth.DeleteAccount(userId, authFailure);
      if authError.Some? {
        errorMessage := DeleteIdentityFailed + authError.value;
      }
    }
  }

  // ------------------------------------------------------------------
  // Creating a user

  /** The Create button, disabled when the email, the password or the name
      is empty: it is enabled exactly when all three are filled in. */
  function CreateEnabled(email: string, password: string, name: string): (enabled: bool)
    ensures enabled <==> |email| > 0 && |password| > 0 && |name| > 0
  {
    !(email == [] || password == [] || name == [])
  }

  /** How `createUser(withEmail:password:)` completes. */
  datatype CreateOutcome =
    | CreateFailed(message: string)  // an error, with its localized description
    | NoResult                       // neither an error nor a user
    | Created(uid: string)           // the new identity

  class AddUserView {
    var email: string
    var name: string
    var password: string
    var role: UserRole
    var errorMessage: string
    var dismissed: bool
    /** The `users` path. */
    const users: Collection

    constructor (users: Collection)
      ensures this.users == users && email == "" && name == "" && password == ""
      ensures role == Employee && errorMessage == "" && !dismissed
    {
      this.users := users;
      email := "";
      name := "";
      password := "";
      role := Employee;
      errorMessage := "";
      dismissed := false;
    }

    /** `createUser()`, with `outcome` for the identity provider's answer and
        `saveFailure` for the completion error of saving the profile: no
        profile is written unless an identity was created; the profile is
        stored under the new uid, with that uid as its id; the sheet closes
        only once it is saved. The provider signs in as the new identity. */
    method CreateUser(outcome: CreateOutcome, auth: Auth, saveFailure: Option<string>)
      modifies users, auth, this`errorMessage, this`dismissed
      ensures outcome.CreateFailed? ==>
        && errorMessage == outcome.message && dismissed == old(dismissed)
        && users.children == old(users.children)
        && auth.accounts == old(auth.accounts) && auth.currentUser == old(auth.currentUser)
      ensures outcome.NoResult? ==>
        && errorMessage == old(errorMessage) && dismissed == old(dismissed)
        && users.children == old(users.children)
        && auth.accounts == old(auth.accounts) && auth.currentUser == old(auth.currentUser)
      ensures outcome.Created? ==>
        && auth.accounts == old(auth.accounts) + {outcome.uid}
        && auth.currentUser == Some(Session(outcome.uid, Some(email)))
      ensures outcome.Created? && saveFailure.None? ==>
        && users.children == old(users.children)[outcome.uid := Dict(UserPayload(AppUser(outcome.uid, name, email, role)))]
        && dismissed && errorMessage == old(errorMessage)
      ensures outcome.Created? && saveFailure.Some? ==>
        && users.children == old(users.children)
        && errorMessage == saveFailure.value && dismissed == old(dismissed)
    {
      match outcome {
        case CreateFailed(message) =>
          errorMessage := message;
          return;
        case NoResult =>
          return;
        case Created(uid) =>
          auth.CreateAccount(Session(uid, Some(email)));
          var newUser := AppUser(uid, name, email, role);
          var error := users.SetValue(uid, Dict(UserPayload(newUser)), saveFailure);
          if error.Some? {
            errorMessage := error.value;
          } else {
            dismissed := true;
          }
      }
    }
  }

  /** The profile saved for a new identity reads back as the new user, whose
      id is the identity's uid. */
  lemma CreatedProfileIsFetched(children: map<string, Value>, uid: string, name: string, email: string, role: UserRole)
    ensures var stored := children[uid := Dict(UserPayload(AppUser(uid, name, email, role)))];
      DecodeUser(uid, stored[uid]) == Some(AppUser(uid, name, email, role))
  {
    DecodeUserPayload(AppUser(uid, name, email, role), Null);
  }
}

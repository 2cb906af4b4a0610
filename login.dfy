/** `ContentView`: the login form, its field validation and sign-in
    sequence, and the choice between the login form and the main tabs. */
module Login {
  import opened Wire
  import opened Models
  import opened Store
  import opened Users

  const FillAllFields := "Пожалуйста, заполните все поля"
  const InvalidEmail := "Введите корректный email"
  const AuthenticationFailed := "Ошибка аутентификации"
  const ProfileLoadFailed := "Ошибка загрузки данных пользователя"

  /** The message `validateFields` shows for the fields, none when they
      pass: missing fields are reported before a malformed email. */
  function FieldsProblem(email: string, password: string): (r: Option<string>)
    ensures r.None? <==> email != "" && password != "" && '@' in email
    ensures email == "" || password == "" ==> r == Some(FillAllFields)
    ensures email != "" && password != "" && '@' !in email ==> r == Some(InvalidEmail)
  {
    if email == "" || password == "" then Some(FillAllFields)
    else if '@' !in email then Some(InvalidEmail)
    else None
  }

  /** What the root `Group` shows. */
  datatype Screen = LoginForm | MainTabs

  /** The main tabs exactly when a profile is loaded, the login form otherwise. */
  function RootScreen(currentUser: Option<AppUser>): (s: Screen)
    ensures s == MainTabs <==> currentUser.Some?
    ensures s == LoginForm <==> currentUser.None?
  {
    if currentUser.Some? then MainTabs else LoginForm
  }

  /** How `signIn(withEmail:password:)` completes. */
  datatype SignInOutcome =
    | SignInFailed(message: string)  // an error, with its localized description
    | NoUser                         // neither an error nor a user
    | SignedIn(uid: string)          // the identity now signed in

  class LoginView {
    var email: string
    var password: string
    var errorMessage: string
    var isLoading: bool

    constructor ()
      ensures email == "" && password == "" && errorMessage == "" && !isLoading
    {
      email := "";
      password := "";
      errorMessage := "";
      isLoading := false;
    }

    /** `validateFields()`: a rejected form shows why; an accepted one
        leaves the message alone. */
    method ValidateFields() returns (valid: bool)
      modifies this`errorMessage
      ensures valid <==> FieldsProblem(email, password).None?
      ensures errorMessage == if valid then old(errorMessage) else FieldsProblem(email, password).value
    {
      if email == "" || password == "" {
        errorMessage := FillAllFields;
        return false;
      }
      if '@' !in email {
        errorMessage := InvalidEmail;
        return false;
      }
      return true;
    }

    /** The synchronous part of `loginUser()`: a rejected form starts
        nothing and leaves `isLoading` alone; an accepted one shows the
        spinner, clears the message and starts the sign-in, whose answer
        arrives in `SignInCompleted`. */
    method LoginUser() returns (signInStarted: bool)
      modifies this`errorMessage, this`isLoading
      ensures signInStarted <==> FieldsProblem(email, password).None?
      ensures !signInStarted ==> isLoading == old(isLoading) && errorMessage == FieldsProblem(email, password).value
      ensures signInStarted ==> isLoading && errorMessage == ""
    {
      var valid := ValidateFields();
      if !valid {
        return false;
      }
      isLoading := true;
      errorMessage := "";
      return true;
    }

    /** The completion of the sign-in: loading ends on every path; an error
        or a missing user is shown; a signed-in identity fetches its
        profile, and a profile that cannot be read is reported and signs
        the identity out again, unless `signOut()` throws (`signOutFailure`),
        which `try?` ignores. */
    method SignInCompleted(outcome: SignInOutcome, auth: Auth, service: UserService, signOutFailure: Option<string>)
      modifies this`isLoading, this`errorMessage, auth`currentUser, service`currentUser
      ensures !isLoading
      ensures outcome.SignInFailed? ==>
        errorMessage == outcome.message && auth.currentUser == old(auth.currentUser) && service.currentUser == old(service.currentUser)
      ensures outcome.NoUser? ==>
        errorMessage == AuthenticationFailed && auth.currentUser == old(auth.currentUser) && service.currentUser == old(service.currentUser)
      ensures outcome.SignedIn? ==>
        var profile := DecodeUser(outcome.uid, service.users.Child(outcome.uid));
        if profile.Some? then
          service.currentUser == profile && auth.currentUser == Some(Session(outcome.uid, Some(email)))
          && errorMessage == old(errorMessage)
        else
          && service.currentUser == old(service.currentUser) && errorMessage == ProfileLoadFailed
          && auth.currentUser == if signOutFailure.None? then None else Some(Session(outcome.uid, Some(email)))
    {
      isLoading := false;
      match outcome {
        case SignInFailed(message) =>
          errorMessage := message;
        case NoUser =>
          errorMessage := AuthenticationFailed;
        case SignedIn(uid) =>
          auth.SignIn(Session(uid, Some(email)));
          var success := service.FetchUser(uid);
          if !success {
            errorMessage := ProfileLoadFailed;
            var _ := auth.SignOut(signOutFailure);
          }
      }
    }
  }
}

/** The login page: two credential fields and the submit handler that asks
    the authentication service and either logs in or shows why not. The
    service is a parameter: it answers `true`, `false`, or throws. */
module LoginPage {

  datatype Credentials = Credentials(name: string, password: string)

  datatype Field = Name | Password

  /** What `authenticate(formData)` settles to. */
  datatype AuthResult = Returned(ok: bool) | Rejected

  const InvalidCredentials: string := "Invalid username or password"
  const ServiceFailed: string := "Authentication failed. Please try again later."

  /** `{ ...formData, [e.target.name]: e.target.value }` */
  function SetField(c: Credentials, f: Field, value: string): Credentials
  {
    match f
    case Name => c.(name := value)
    case Password => c.(password := value)
  }

  /** A change sets the named field to the typed value and keeps the other. */
  lemma ChangeTouchesOneField(c: Credentials, f: Field, value: string)
    ensures f == Name ==> SetField(c, f, value) == Credentials(value, c.password)
    ensures f == Password ==> SetField(c, f, value) == Credentials(c.name, value)
  {
  }

  /** The error the page shows once `authenticate` has settled: none after a
      `true`, one fixed message after a `false`, another after a throw. */
  function ErrorAfter(r: AuthResult): (message: string)
  {
    match r
    case Returned(true) => ""
    case Returned(false) => InvalidCredentials
    case Rejected => ServiceFailed
  }

  /** The error is empty exactly when the user is let in, and the three
      outcomes are told apart by the message alone. */
  lemma ErrorIffNotLoggedIn(r: AuthResult, s: AuthResult)
    ensures ErrorAfter(r) == "" <==> r == Returned(true)
    ensures ErrorAfter(r) == ErrorAfter(s) ==> r == s
  {
  }

  class Page {
    var formData: Credentials
    var error: string
    var isLoading: bool

    constructor()
      ensures formData == Credentials("", "") && error == "" && !isLoading
    {
      formData := Credentials("", "");
      error := "";
      isLoading := false;
    }

    method HandleChange(f: Field, value: string)
      modifies this
      ensures formData == SetField(old(formData), f, value)
      ensures error == old(error) && isLoading == old(isLoading)
    {
      formData := SetField(formData, f, value);
    }

    /** `handleSubmit`: the error is cleared, the current credentials are
        sent, and `onLogin` is called (`loggedIn`) exactly when the service
        answered `true`. Loading ends either way. */
    method HandleSubmit(authenticate: Credentials -> AuthResult) returns (loggedIn: bool)
      modifies this
      ensures loggedIn <==> authenticate(old(formData)) == Returned(true)
      ensures error == ErrorAfter(authenticate(old(formData)))
      ensures formData == old(formData) && !isLoading
    {
      error := "";
      isLoading := true;
      var r := authenticate(formData);
      loggedIn := false;
      match r {
        case Returned(ok) =>
          if ok {
            loggedIn := true;
          } else {
            error := InvalidCredentials;
          }
        case Rejected =>
          error := ServiceFailed;
      }
      isLoading := false;
    }
  }
}

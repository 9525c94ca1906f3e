/** The signup page: the password checks, the account record handed to the provider, the
    automatic login after a successful signup, and the redirect by role.

    The 1500 ms timer before the redirect is the pending `navigation` the submission leaves. */
module Signup {
  import opened Wrappers
  import opened AuthContext

  /** The form's state. */
  datatype SignupForm = SignupForm(name: string, email: string, password: string, confirmPassword: string, role: string)

  const EmptySignupForm: SignupForm := SignupForm("", "", "", "", "user")

  /** The form's inputs by their `name` attribute. */
  function WithField(f: SignupForm, name: string, value: string): (r: SignupForm)
    ensures name == "name" ==> r == f.(name := value)
    ensures name == "email" ==> r == f.(email := value)
    ensures name == "password" ==> r == f.(password := value)
    ensures name == "confirmPassword" ==> r == f.(confirmPassword := value)
    ensures name == "role" ==> r == f.(role := value)
    ensures name !in {"name", "email", "password", "confirmPassword", "role"} ==> r == f
  {
    match name
    case "name" => f.(name := value)
    case "email" => f.(email := value)
    case "password" => f.(password := value)
    case "confirmPassword" => f.(confirmPassword := value)
    case "role" => f.(role := value)
    case _ => f
  }

  /** A second edit of the same input overrides the first. */
  lemma LastEditWins(f: SignupForm, name: string, first: string, second: string)
    ensures WithField(WithField(f, name, first), name, second) == WithField(f, name, second)
  {
  }

  const MinPasswordLength: nat := 6
  const PasswordsDiffer: string := "Passwords do not match"
  const PasswordTooShort: string := "Password must be at least 6 characters"
  const SignupFailed: string := "Signup failed. Please try again."
  const SignupSucceeded: string := "Signup successful! Redirecting..."

  /** The two client-side checks, in order: confirmation first, then length, counted as
      JavaScript's `length` counts, in UTF-16 code units. */
  function Check(f: SignupForm): (r: Option<string>)
    ensures r == Some(PasswordsDiffer) <==> f.password != f.confirmPassword
    ensures r == Some(PasswordTooShort) <==> f.password == f.confirmPassword && Text.Utf16Length(f.password) < MinPasswordLength
    ensures r == None <==> f.password == f.confirmPassword && Text.Utf16Length(f.password) >= MinPasswordLength
  {
    if f.password != f.confirmPassword then Some(PasswordsDiffer)
    else if Text.Utf16Length(f.password) < MinPasswordLength then Some(PasswordTooShort)
    else None
  }

  /** A short password that does not match its confirmation reports the mismatch; six
      code units are enough. */
  lemma CheckOrder(f: SignupForm)
    ensures f.password != f.confirmPassword && Text.Utf16Length(f.password) < MinPasswordLength ==> Check(f) == Some(PasswordsDiffer)
    ensures f.password == f.confirmPassword && Text.Utf16Length(f.password) == 6 ==> Check(f) == None
  {
  }

  /** Three characters outside the Basic Multilingual Plane make six code units: such a
      password passes the length check, while five ASCII letters do not. */
  lemma AstralPasswordLength()
    ensures Check(SignupForm("", "", "\U{1F600}\U{1F600}\U{1F600}", "\U{1F600}\U{1F600}\U{1F600}", "user")) == None
    ensures Check(SignupForm("", "", "abcde", "abcde", "user")) == Some(PasswordTooShort)
  {
    var smile := "\U{1F600}";
    Text.Utf16LengthConcat(smile, smile);
    Text.Utf16LengthConcat(smile, smile + smile);
    assert smile + (smile + smile) == "\U{1F600}\U{1F600}\U{1F600}";
  }

  /** The account the page hands to `signup`: everything but the confirmation. */
  function UserData(f: SignupForm): (u: UserRecord)
    ensures u.email == f.email && u.password == f.password && u.role == f.role && u.name == f.name
  {
    UserRecord(f.email, f.password, f.role, f.name)
  }

  /** Where a new account is sent: the dashboard for an admin, else the landing page. */
  function RedirectFor(role: string): (path: string)
    ensures path == "/admin" <==> role == "admin"
    ensures path == "/" <==> role != "admin"
  {
    if role == "admin" then "/admin" else "/"
  }

  /** The message shown for a thrown error: its own, or the fallback when it is empty. */
  function ErrorText(message: string): (r: string)
    ensures r != ""
    ensures message != "" ==> r == message
  {
    if message != "" then message else SignupFailed
  }

  /** The page's state besides the form. */
  class SignupPage {
    var form: SignupForm
    var error: string
    var success: string
    var loading: bool
    /** The path the pending redirect timer will navigate to. */
    var navigation: Option<string>

    constructor ()
      ensures form == EmptySignupForm && error == "" && success == "" && !loading && navigation == None
    {
      form := EmptySignupForm;
      error := "";
      success := "";
      loading := false;
      navigation := None;
    }

    /** `handleChange`: stores the edited input's value. */
    method HandleChange(name: string, value: string)
      modifies this`form
      ensures form == WithField(old(form), name, value)
    {
      form := WithField(form, name, value);
    }

    /** `handleSubmit`: the checks, then `signup`, then `login`, then the redirect. On every
        path `loading` ends false; `signup` is called only when the checks pass, and `login`
        only when `signup` returns. */
    method HandleSubmit(auth: AuthProvider, now: int)
      modifies this`error, this`success, this`loading, this`navigation
      modifies auth`usersStore, auth`sessionStore, auth`user
      ensures !loading
      ensures var check := Check(form);
        var signup := Signup(old(auth.usersStore).GetOr([]), UserData(form));
        var login := Login(form.email, form.password, now);
        && (check.Some? ==>
              error == check.value && success == "" && navigation == old(navigation)
              && auth.usersStore == old(auth.usersStore) && auth.sessionStore == old(auth.sessionStore)
              && auth.user == old(auth.user))
        && (check.None? && signup.Err? ==>
              error == signup.message && success == "" && navigation == old(navigation)
              && auth.usersStore == old(auth.usersStore) && auth.sessionStore == old(auth.sessionStore)
              && auth.user == old(auth.user))
        && (check.None? && signup.Ok? && login.Err? ==>
              error == login.message && success == "" && navigation == old(navigation)
              && auth.usersStore == Some(signup.value) && auth.sessionStore == old(auth.sessionStore)
              && auth.user == old(auth.user))
        && (check.None? && signup.Ok? && login.Ok? ==>
              error == "" && success == SignupSucceeded && navigation == Some(RedirectFor(form.role))
              && auth.usersStore == Some(signup.value) && auth.sessionStore == Some(Parsed(login.value))
              && auth.user == Some(login.value.user))
    {
      error := "";
      success := "";
      loading := true;
      var check := Check(form);
      if check.Some? {
        error := check.value;
        loading := false;
        return;
      }
      var refused := auth.SignUp(UserData(form));
      if refused.Some? {
        error := ErrorText(refused.value);
        loading := false;
        return;
      }
      var loggedIn := auth.LogIn(form.email, form.password, now);
      if loggedIn.Err? {
        error := ErrorText(loggedIn.message);
        loading := false;
        return;
      }
      success := SignupSucceeded;
      navigation := Some(RedirectFor(form.role));
      loading := false;
    }
  }

  /** A signup of an email no built-in account has stores the account and then fails to log
      in, so the page shows the login error and never redirects. */
  lemma NewAccountShowsLoginError(users: seq<UserRecord>, f: SignupForm, now: int)
    requires Check(f) == None
    requires !EmailTaken(users, f.email)
    requires forall i :: 0 <= i < |MockUsers| ==> Text.Lower(MockUsers[i].email) != Text.Lower(f.email)
    ensures Signup(users, UserData(f)).Ok?
    ensures Login(f.email, f.password, now) == Err(InvalidCredentials)
  {
    NewAccountsCannotLogIn(f.email, f.password, now);
  }
}

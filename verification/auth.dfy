/**
 * The sign-in / sign-up page: `handleAuth` runs the sign-up guards, sends one
 * request to the authentication backend and reports the outcome, with the
 * `loading` flag raised for the whole attempt; the mode toggle resets the form.
 * The backend's reply is a parameter.
 */
module Auth {

  import opened Wrappers
  import opened JsText

  const MIN_PASSWORD_LENGTH: nat := 6
  const AUTH_ERROR_DEFAULT: Text := Lit("An error occurred during authentication")

  /** What the page asks the backend for; sign-up carries the trimmed names and the e-mail redirect. */
  datatype AuthRequest =
    | SignIn(email: Text, password: Text)
    | SignUp(email: Text, password: Text, redirectTo: Text, firstName: Text, lastName: Text)

  /** The backend's answer: an error (whose message may be missing), or success with the user and session flags of sign-up. */
  datatype AuthReply = Rejected(message: Option<Text>) | Accepted(hasUser: bool, hasSession: bool)

  /** The toast the attempt ends with. */
  datatype Notice =
    | WelcomeBack
    | PasswordMismatch
    | PasswordTooShort
    | FirstNameRequired
    | CheckYourEmail
    | AccountCreated(firstName: Text)
    | AuthenticationError(message: Text)

  // ------------------------------------------------------------ specification

  /** The first sign-up guard that fails, if any: mismatch, then length, then a blank first name. */
  function SignUpRejection(password: Text, confirmPassword: Text, firstName: Text): (r: Option<Notice>)
    ensures r.None? <==> password == confirmPassword && |password| >= MIN_PASSWORD_LENGTH && Trim(firstName) != []
    ensures r.Some? ==> r.value in {PasswordMismatch, PasswordTooShort, FirstNameRequired}
  {
    if password != confirmPassword then Some(PasswordMismatch)
    else if |password| < MIN_PASSWORD_LENGTH then Some(PasswordTooShort)
    else if Trim(firstName) == [] then Some(FirstNameRequired)
    else None
  }

  /** The request the form sends, if its guards pass. */
  function RequestFor(isLogin: bool, email: Text, password: Text, confirmPassword: Text,
                      firstName: Text, lastName: Text, origin: Text): (r: Option<AuthRequest>)
    ensures isLogin ==> r == Some(SignIn(email, password))
    ensures !isLogin ==> (r.Some? <==> SignUpRejection(password, confirmPassword, firstName).None?)
    ensures r.Some? && r.value.SignUp? ==>
      r.value.firstName == Trim(firstName) && r.value.lastName == Trim(lastName) && r.value.firstName != []
  {
    if isLogin then Some(SignIn(email, password))
    else if SignUpRejection(password, confirmPassword, firstName).Some? then None
    else Some(SignUp(email, password, origin + Lit("/"), Trim(firstName), Trim(lastName)))
  }

  /** The toast for a reply; the welcome after sign-up greets the name as typed, untrimmed. */
  function ReplyNotice(isLogin: bool, firstName: Text, reply: AuthReply): (n: Notice)
    ensures reply.Rejected? ==> n == AuthenticationError(OrElse(reply.message, AUTH_ERROR_DEFAULT))
    ensures reply.Accepted? && isLogin ==> n == WelcomeBack
  {
    match reply
    case Rejected(message) => AuthenticationError(OrElse(message, AUTH_ERROR_DEFAULT))
    case Accepted(hasUser, hasSession) =>
      if isLogin then WelcomeBack
      else if hasUser && !hasSession then CheckYourEmail
      else AccountCreated(firstName)
  }

  // ------------------------------------------------------------ properties

  /** A mismatch is reported first, whatever the length of the password and the first name. */
  lemma MismatchReportedFirst(password: Text, confirmPassword: Text, firstName: Text)
    requires password != confirmPassword
    ensures SignUpRejection(password, confirmPassword, firstName) == Some(PasswordMismatch)
  {
  }

  /** Matching passwords are checked for length before the first name. */
  lemma LengthBeforeName(password: Text, firstName: Text)
    requires |password| < MIN_PASSWORD_LENGTH
    ensures SignUpRejection(password, password, firstName) == Some(PasswordTooShort)
  {
  }

  /** A first name of white space only is refused even though it is not empty. */
  lemma BlankFirstNameRefused(password: Text)
    requires |password| >= MIN_PASSWORD_LENGTH
    ensures SignUpRejection(password, password, Lit("  ")) == Some(FirstNameRequired)
  {
    assert IsJsSpace(Lit("  ")[0]) && IsJsSpace(Lit("  ")[1]);
    TrimEmptyIff(Lit("  "));
  }

  /** Sign-in never runs the sign-up guards: the request goes out even with an empty confirmation and name. */
  lemma SignInSkipsGuards(email: Text, password: Text, origin: Text)
    ensures RequestFor(true, email, password, [], [], [], origin) == Some(SignIn(email, password))
    ensures |password| < MIN_PASSWORD_LENGTH ==> RequestFor(false, email, password, password, [], [], origin).None?
  {
  }

  // ------------------------------------------------------------ the form

  class AuthForm {
    var isLogin: bool
    var email: Text
    var password: Text
    var confirmPassword: Text
    var firstName: Text
    var lastName: Text
    var loading: bool
    /** Every value passed to `setLoading`, oldest first. */
    var loadingHistory: seq<bool>

    /** The page as mounted: sign-in mode, empty fields, not loading. */
    constructor ()
      ensures isLogin && !loading && loadingHistory == []
      ensures email == [] && password == [] && confirmPassword == [] && firstName == [] && lastName == []
    {
      isLogin := true;
      email, password, confirmPassword, firstName, lastName := [], [], [], [], [];
      loading := false;
      loadingHistory := [];
    }

    /**
     * `handleAuth`: raise the loading flag, run the guards, send the request
     * and report the reply; the `finally` lowers the flag on every path.
     */
    method HandleAuth(origin: Text, reply: AuthReply) returns (request: Option<AuthRequest>, notice: Notice)
      modifies this
      ensures request == RequestFor(isLogin, email, password, confirmPassword, firstName, lastName, origin)
      ensures request.None? ==> Some(notice) == SignUpRejection(password, confirmPassword, firstName)
      ensures request.Some? ==> notice == ReplyNotice(isLogin, firstName, reply)
      ensures !loading && loadingHistory == old(loadingHistory) + [true, false]
      ensures isLogin == old(isLogin) && email == old(email) && password == old(password)
      ensures confirmPassword == old(confirmPassword) && firstName == old(firstName) && lastName == old(lastName)
    {
      loading := true;
      loadingHistory := loadingHistory + [true];
      request := None;
      if isLogin {
        request := Some(SignIn(email, password));
        notice := ReplyNotice(true, firstName, reply);
      } else {
        if password != confirmPassword {
          notice := PasswordMismatch;
        } else if |password| < 6 {
          notice := PasswordTooShort;
        } else if Trim(firstName) == [] {
          notice := FirstNameRequired;
        } else {
          request := Some(SignUp(email, password, origin + Lit("/"), Trim(firstName), Trim(lastName)));
          match reply {
            case Rejected(message) =>
              notice := AuthenticationError(OrElse(message, AUTH_ERROR_DEFAULT));
            case Accepted(hasUser, hasSession) =>
              if hasUser && !hasSession {
                notice := CheckYourEmail;
              } else {
                notice := AccountCreated(firstName);
              }
          }
        }
      }
      loading := false;
      loadingHistory := loadingHistory + [false];
    }

    /** The mode toggle: flip the mode and clear everything but the e-mail. */
    method ToggleMode()
      modifies this
      ensures isLogin == !old(isLogin) && email == old(email)
      ensures password == [] && confirmPassword == [] && firstName == [] && lastName == []
      ensures loading == old(loading) && loadingHistory == old(loadingHistory)
    {
      isLogin := !isLogin;
      password := [];
      confirmPassword := [];
      firstName := [];
      lastName := [];
    }
  }

  /** Switching to sign-up and straight back leaves the form in sign-in mode with only the e-mail kept. */
  method ToggleTwice(form: AuthForm)
    modifies form
    ensures form.isLogin == old(form.isLogin) && form.email == old(form.email)
    ensures form.password == [] && form.confirmPassword == [] && form.firstName == [] && form.lastName == []
  {
    form.ToggleMode();
    form.ToggleMode();
  }
}

/** The sign-in page's form logic: credential validation, the email sign-in
    and sign-up handler, the Google sign-in handler and the mode toggle, with
    their discipline over the `isLoading` and `error` flags. The outcomes of
    the authentication service and the CRM call are inputs. */
module AuthPage {
  import opened JsValues
  import UtmCapture

  const InvalidEmailMessage: string := "Invalid email address"
  const ShortPasswordMessage: string := "Password must be at least 6 characters"
  const MinPasswordLength: nat := 6
  const DefaultErrorMessage: string := "An unexpected error occurred"

  /** The messages the credential schema reports, in field order: the email
      rule first, then the password length rule. `emailWellFormed` is the
      verdict of the schema's email-format rule on the trimmed address. */
  function SchemaIssues(emailWellFormed: bool, password: string): (r: seq<string>)
    ensures |r| == (if emailWellFormed then 0 else 1) + (if |password| < MinPasswordLength then 1 else 0)
    ensures InvalidEmailMessage in r <==> !emailWellFormed
    ensures ShortPasswordMessage in r <==> |password| < MinPasswordLength
    ensures !emailWellFormed ==> r[0] == InvalidEmailMessage
  {
    (if emailWellFormed then [] else [InvalidEmailMessage]) +
    (if |password| < MinPasswordLength then [ShortPasswordMessage] else [])
  }

  /** The message shown when validation fails (the first issue), or None
      when the credentials pass. */
  function ValidationError(emailWellFormed: bool, password: string): (r: Option<string>)
    ensures r.None? <==> emailWellFormed && |password| >= MinPasswordLength
    ensures !emailWellFormed ==> r == Some(InvalidEmailMessage)
    ensures emailWellFormed && |password| < MinPasswordLength ==> r == Some(ShortPasswordMessage)
  {
    var issues := SchemaIssues(emailWellFormed, password);
    if |issues| == 0 then None else Some(issues[0])
  }

  /** The text of a caught error: its message when non-empty, else the default. */
  function FailureMessage(message: Option<string>): (r: string)
    ensures r != ""
    ensures Truthy(message) ==> r == message.value
    ensures !Truthy(message) ==> r == DefaultErrorMessage
  {
    Or(message, DefaultErrorMessage)
  }

  /** What the password sign-up or sign-in call reported: accepted (for a
      sign-up, whether a user record came back), or an error with its message. */
  datatype AuthResult = Accepted(userReturned: bool) | Rejected(message: Option<string>)

  /** What the Google OAuth call did: started the redirect, returned an error,
      or threw. */
  datatype OAuthResult = Redirecting | ReturnedError(message: Option<string>) | Threw(message: Option<string>)

  /** The authentication calls the page makes. */
  datatype AuthCall = SignUp(email: string, password: string) | SignIn(email: string, password: string) | GoogleOAuth

  class AuthForm {
    var isLoading: bool
    var error: Option<string>
    var isSignUp: bool
    var email: string
    var password: string
    /** The `utm_params` entry of session storage. */
    var storedUtm: Option<map<UtmCapture.Param, string>>
    /** Authentication calls made, in order. */
    var calls: seq<AuthCall>
    /** The marketing parameters sent with each CRM lead request, in order. */
    var leads: seq<map<UtmCapture.Param, string>>

    /** The page as mounted: empty form in sign-in mode, the captured
        parameters written to session storage (always, since `landing_page`
        is always among them). */
    constructor (query: UtmCapture.Query, hostname: string)
      ensures !isLoading && error.None? && !isSignUp && email == "" && password == ""
      ensures calls == [] && leads == []
      ensures storedUtm.Some?
      ensures forall p :: p != UtmCapture.LandingPage ==>
        (p in storedUtm.value <==> Truthy(UtmCapture.Get(query, UtmCapture.Name(p))))
      ensures forall p :: p in storedUtm.value && p != UtmCapture.LandingPage ==>
        UtmCapture.Get(query, UtmCapture.Name(p)) == Some(storedUtm.value[p]) && storedUtm.value[p] != ""
      ensures UtmCapture.LandingPage in storedUtm.value &&
        storedUtm.value[UtmCapture.LandingPage] == Or(UtmCapture.Get(query, UtmCapture.Name(UtmCapture.LandingPage)), hostname)
    {
      var captured, stored := UtmCapture.CaptureUtm(query, hostname);
      isLoading := false;
      error := None;
      isSignUp := false;
      email := "";
      password := "";
      storedUtm := stored;
      calls := [];
      leads := [];
    }

    /** The form fields are edited. */
    method EditCredentials(newEmail: string, newPassword: string)
      modifies this`email, this`password
      ensures email == newEmail && password == newPassword
    {
      email := newEmail;
      password := newPassword;
    }

    /** Submit of the form. Loading ends false on every path and the error is
        cleared first. Invalid credentials show the first validation message
        and call nothing. Otherwise one sign-up or sign-in call is made; a
        rejection shows its message (or the default). After a sign-up that
        returned a user a CRM lead is requested with the stored parameters,
        which are removed only when that request did not throw; a throwing
        CRM request leaves the sign-up successful. */
    method HandleEmailAuth(emailWellFormed: bool, result: AuthResult, crmThrows: bool)
      modifies this`isLoading, this`error, this`storedUtm, this`calls, this`leads
      ensures !isLoading
      ensures ValidationError(emailWellFormed, password).Some? ==>
        error == ValidationError(emailWellFormed, password) &&
        calls == old(calls) && leads == old(leads) && storedUtm == old(storedUtm)
      ensures ValidationError(emailWellFormed, password).None? ==>
        calls == old(calls) + [if isSignUp then SignUp(email, password) else SignIn(email, password)] &&
        error == (if result.Rejected? then Some(FailureMessage(result.message)) else None)
      ensures var leadSent := ValidationError(emailWellFormed, password).None? && isSignUp && result == Accepted(true);
        leads == old(leads) + (if leadSent then [if old(storedUtm).Some? then old(storedUtm).value else map[]] else []) &&
        storedUtm == (if leadSent && !crmThrows then None else old(storedUtm))
    {
      isLoading := true;
      error := None;
      var issue := ValidationError(emailWellFormed, password);
      if issue.Some? {
        error := issue;
      } else if isSignUp {
        calls := calls + [SignUp(email, password)];
        match result
        case Rejected(message) =>
          error := Some(FailureMessage(message));
        case Accepted(userReturned) =>
          if userReturned {
            leads := leads + [if storedUtm.Some? then storedUtm.value else map[]];
            if !crmThrows {
              storedUtm := None;
            }
          }
      } else {
        calls := calls + [SignIn(email, password)];
        if result.Rejected? {
          error := Some(FailureMessage(result.message));
        }
      }
      isLoading := false;
    }

    /** Google sign-in. The error is cleared and loading starts; loading is
        reset only when the call returned an error or threw, in which case
        the error shows the returned message, or the thrown message (or the
        default). While the redirect starts, loading stays on. */
    method SignInWithGoogle(result: OAuthResult)
      modifies this`isLoading, this`error, this`calls
      ensures calls == old(calls) + [GoogleOAuth]
      ensures isLoading <==> result.Redirecting?
      ensures error == match result
        case Redirecting => None
        case ReturnedError(message) => message
        case Threw(message) => Some(FailureMessage(message))
    {
      isLoading := true;
      error := None;
      calls := calls + [GoogleOAuth];
      match result
      case Redirecting =>
      case ReturnedError(message) =>
        error := message;
        isLoading := false;
      case Threw(message) =>
        error := Some(FailureMessage(message));
        isLoading := false;
    }

    /** The mode link: flips between sign-in and sign-up and clears the error. */
    method ToggleMode()
      modifies this`isSignUp, this`error
      ensures isSignUp == !old(isSignUp)
      ensures error.None?
    {
      isSignUp := !isSignUp;
      error := None;
    }
  }
}

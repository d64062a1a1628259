/** The login / register page: pre-validation, the provider's error codes, and the form state. */
module LoginPage {
  import opened Wrappers

  const PasswordsMismatch: string := "Passwords do not match."
  const ConsentRequired: string :=
    "You must accept the Terms of Service, Privacy Policy and the Disclaimer."

  const InvalidCredential: string := "Invalid email or password."
  const EmailInUse: string := "Email already registered. Please log in."
  const WeakPassword: string := "Password must be at least 6 characters."
  const InvalidEmail: string := "Please enter a valid email address."
  const GenericFailure: string := "Something went wrong. Please try again."

  /** The checks `handleAuth` makes before calling the identity provider; `None` lets the call go ahead. */
  function PreValidate(isRegistering: bool, password: string, confirmPassword: string,
                       acceptedTerms: bool, acceptedPrivacy: bool, acceptedDisclaimer: bool)
    : (r: Option<string>)
    ensures !isRegistering ==> r.None?
    ensures isRegistering && password != confirmPassword ==> r == Some(PasswordsMismatch)
    ensures (isRegistering && password == confirmPassword &&
             !(acceptedTerms && acceptedPrivacy && acceptedDisclaimer)) ==>
      r == Some(ConsentRequired)
    ensures r.None? <==>
      !isRegistering ||
      (password == confirmPassword && acceptedTerms && acceptedPrivacy && acceptedDisclaimer)
  {
    if isRegistering && password != confirmPassword then Some(PasswordsMismatch)
    else if isRegistering && !(acceptedTerms && acceptedPrivacy && acceptedDisclaimer) then
      Some(ConsentRequired)
    else None
  }

  /** The message for a provider error code. */
  function AuthErrorMessage(code: string): (m: string)
    ensures code == "auth/invalid-credential" ==> m == InvalidCredential
    ensures code == "auth/email-already-in-use" ==> m == EmailInUse
    ensures code == "auth/weak-password" ==> m == WeakPassword
    ensures code == "auth/invalid-email" ==> m == InvalidEmail
    ensures (code !in {"auth/invalid-credential", "auth/email-already-in-use",
                       "auth/weak-password", "auth/invalid-email"}) ==>
      m == GenericFailure
  {
    if code == "auth/invalid-credential" then InvalidCredential
    else if code == "auth/email-already-in-use" then EmailInUse
    else if code == "auth/weak-password" then WeakPassword
    else if code == "auth/invalid-email" then InvalidEmail
    else GenericFailure
  }

  /** `signupDisabled` */
  function SignupDisabled(loading: bool, isRegistering: bool, acceptedTerms: bool,
                          acceptedPrivacy: bool, acceptedDisclaimer: bool,
                          password: string, confirmPassword: string): (disabled: bool)
    ensures loading ==> disabled
    ensures !loading ==>
      (disabled <==> PreValidate(isRegistering, password, confirmPassword,
                                 acceptedTerms, acceptedPrivacy, acceptedDisclaimer).Some?)
  {
    loading ||
    (isRegistering &&
     (!acceptedTerms || !acceptedPrivacy || !acceptedDisclaimer || password != confirmPassword))
  }

  /** The `users` document written for a new account; the server timestamp is not modelled. */
  datatype UserDoc = UserDoc(email: Option<string>, tier: string, acceptedTerms: bool,
                             acceptedPrivacy: bool, acceptedDisclaimer: bool)

  function NewUserDoc(email: Option<string>): (d: UserDoc)
    ensures d.email == email && d.tier == "FREE"
    ensures d.acceptedTerms && d.acceptedPrivacy && d.acceptedDisclaimer
  {
    UserDoc(email, "FREE", true, true, true)
  }

  /** The provider's answer to the sign-in or account-creation call. */
  datatype ProviderResult = SignedIn(uid: string, email: Option<string>) | Failed(code: string)

  /** What a submit did beyond the form state. */
  datatype Submit = Submit(providerCalled: bool, written: Option<UserDoc>, navigateTo: Option<string>)

  class LoginForm {
    var isRegistering: bool
    var email: string
    var password: string
    var confirmPassword: string
    var error: string
    var loading: bool
    var acceptedTerms: bool
    var acceptedPrivacy: bool
    var acceptedDisclaimer: bool

    /** The page opens in login mode with an empty form. */
    constructor ()
      ensures !isRegistering
      ensures email == "" && password == "" && confirmPassword == "" && error == ""
      ensures !loading && !acceptedTerms && !acceptedPrivacy && !acceptedDisclaimer
    {
      isRegistering := false;
      email, password, confirmPassword, error := "", "", "", "";
      loading, acceptedTerms, acceptedPrivacy, acceptedDisclaimer := false, false, false, false;
    }

    /** The effect on the query: `register=true` switches to register mode; anything else changes nothing. */
    method OnSearchParams(registerParam: Option<string>)
      modifies this`isRegistering
      ensures isRegistering == (old(isRegistering) || registerParam == Some("true"))
    {
      if registerParam == Some("true") {
        isRegistering := true;
      }
    }

    /** The mode switch: flips the mode and clears the error, the confirmation and the consents. */
    method ToggleMode()
      modifies this
      ensures isRegistering == !old(isRegistering)
      ensures error == "" && confirmPassword == ""
      ensures !acceptedTerms && !acceptedPrivacy && !acceptedDisclaimer
      ensures email == old(email) && password == old(password) && loading == old(loading)
    {
      isRegistering := !isRegistering;
      error := "";
      confirmPassword := "";
      acceptedTerms := false;
      acceptedPrivacy := false;
      acceptedDisclaimer := false;
    }

    /**
     * `handleAuth`. `provider` is the answer of the provider call and `docWriteError` the
     * error code of writing the new user's document, if that write fails.
     */
    method HandleAuth(provider: ProviderResult, docWriteError: Option<string>) returns (s: Submit)
      modifies this`error, this`loading
      ensures var check := PreValidate(old(isRegistering), password, confirmPassword,
                                       acceptedTerms, acceptedPrivacy, acceptedDisclaimer);
        (check.Some? ==>
          s == Submit(false, None, None) && error == check.value && loading == old(loading)) &&
        (check.None? ==> s.providerCalled && !loading)
      ensures s.providerCalled && provider.Failed? ==>
        error == AuthErrorMessage(provider.code) && s.written.None? && s.navigateTo.None?
      ensures s.providerCalled && provider.SignedIn? && !isRegistering ==>
        error == "" && s.written.None? && s.navigateTo == Some("/dashboard")
      ensures s.providerCalled && provider.SignedIn? && isRegistering ==>
        (docWriteError.None? ==>
          error == "" && s.written == Some(NewUserDoc(provider.email)) &&
          s.navigateTo == Some("/dashboard")) &&
        (docWriteError.Some? ==>
          error == AuthErrorMessage(docWriteError.value) && s.written.None? && s.navigateTo.None?)
    {
      error := "";
      var check := PreValidate(isRegistering, password, confirmPassword,
                               acceptedTerms, acceptedPrivacy, acceptedDisclaimer);
      if check.Some? {
        error := check.value;
        return Submit(false, None, None);
      }
      loading := true;
      match provider {
        case Failed(code) =>
          error := AuthErrorMessage(code);
          s := Submit(true, None, None);
        case SignedIn(_, userEmail) =>
          if isRegistering && docWriteError.Some? {
            error := AuthErrorMessage(docWriteError.value);
            s := Submit(true, None, None);
          } else if isRegistering {
            s := Submit(true, Some(NewUserDoc(userEmail)), Some("/dashboard"));
          } else {
            s := Submit(true, None, Some("/dashboard"));
          }
      }
      loading := false;
    }
  }
}

/** The stand-alone sign-up page: a minimum password length, then account creation. */
module SignupPage {
  import opened Wrappers

  const MinPasswordLength: nat := 6

  const PasswordTooShort: string := "La contraseña debe tener al menos 6 caracteres."
  const EmailInUse: string := "Este correo electrónico ya está en uso."
  const GenericFailure: string := "No se pudo crear la cuenta. Inténtalo de nuevo."

  /** The message for a failed account creation. */
  function SignupErrorMessage(code: Option<string>): (m: string)
    ensures code == Some("auth/email-already-in-use") ==> m == EmailInUse
    ensures code != Some("auth/email-already-in-use") ==> m == GenericFailure
  {
    if code == Some("auth/email-already-in-use") then EmailInUse else GenericFailure
  }

  class SignupForm {
    var email: string
    var password: string
    var error: Option<string>
    var loading: bool

    constructor ()
      ensures email == "" && password == "" && error.None? && !loading
    {
      email, password, error, loading := "", "", None, false;
    }

    /**
     * `handleSignup`. `creation` is the provider's answer: `None` on success, otherwise
     * the error, with its code when it has one.
     */
    method HandleSignup(creation: Option<Option<string>>) returns (attempted: bool, toDashboard: bool)
      modifies this`error, this`loading
      ensures attempted <==> |password| >= MinPasswordLength
      ensures !attempted ==> error == Some(PasswordTooShort) && !loading && !toDashboard
      ensures attempted && creation.None? ==> error.None? && loading && toDashboard
      ensures attempted && creation.Some? ==>
        error == Some(SignupErrorMessage(creation.value)) && !loading && !toDashboard
    {
      loading := true;
      error := None;
      if |password| < MinPasswordLength {
        error := Some(PasswordTooShort);
        loading := false;
        return false, false;
      }
      attempted := true;
      if creation.None? {
        toDashboard := true;
      } else {
        error := Some(SignupErrorMessage(creation.value));
        loading := false;
        toDashboard := false;
      }
    }
  }
}

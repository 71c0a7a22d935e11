/**
 * The registration form's submit handler: the two password checks, in their
 * fixed order, before the account service's sign-up is called.
 */
module Register {
  import opened Wrappers

  const PasswordMismatch: string := "Las contraseñas no coinciden"
  const PasswordTooShort: string := "La contraseña debe tener al menos 6 caracteres"
  const Registered: string := "¡Registro exitoso! Revisa tu email para confirmar tu cuenta."
  const DefaultSignUpError: string := "Error al registrarse"
  const MinPasswordLength: nat := 6

  /**
   * How the sign-up call ends: it resolves, or it rejects with an `Error`
   * carrying a message, or with something else.
   */
  datatype SignUpOutcome = SignUpOk | SignUpRejected(message: Option<string>)

  /** The arguments passed to sign-up. */
  datatype SignUpCall = SignUpCall(email: string, password: string)

  /** The first check the password pair fails, if any. */
  function Validate(password: string, confirmPassword: string): (r: Option<string>)
    ensures r == Some(PasswordMismatch) <==> password != confirmPassword
    ensures r == Some(PasswordTooShort) <==> password == confirmPassword && |password| < MinPasswordLength
    ensures r.None? <==> password == confirmPassword && |password| >= MinPasswordLength
  {
    if password != confirmPassword then Some(PasswordMismatch)
    else if |password| < MinPasswordLength then Some(PasswordTooShort)
    else None
  }

  class RegisterPage {
    var email: string
    var password: string
    var confirmPassword: string
    var loading: bool
    var error: string
    var success: string

    constructor()
      ensures email == "" && password == "" && confirmPassword == ""
      ensures !loading && error == "" && success == ""
    {
      email, password, confirmPassword := "", "", "";
      loading, error, success := false, "", "";
    }

    /**
     * Submits the form. `outcome` is how the sign-up call would end; `call`
     * is the call made, if any.
     */
    method HandleRegister(outcome: SignUpOutcome) returns (call: Option<SignUpCall>)
      modifies this
      ensures call.Some? <==> Validate(password, confirmPassword).None?
      ensures call.Some? ==> call.value == SignUpCall(email, password)
      ensures call.None? ==> error == Validate(password, confirmPassword).value && success == ""
      ensures call.Some? && outcome.SignUpOk? ==> success == Registered && error == ""
      ensures call.Some? && outcome.SignUpRejected? ==>
        success == "" && error == outcome.message.GetOr(DefaultSignUpError)
      ensures !loading
      ensures email == old(email) && password == old(password) && confirmPassword == old(confirmPassword)
    {
      loading := true;
      error := "";
      success := "";

      if password != confirmPassword {
        error := PasswordMismatch;
        loading := false;
        return None;
      }

      if |password| < MinPasswordLength {
        error := PasswordTooShort;
        loading := false;
        return None;
      }

      call := Some(SignUpCall(email, password));
      match outcome {
        case SignUpOk =>
          success := Registered;
        case SignUpRejected(message) =>
          error := message.GetOr(DefaultSignUpError);
      }
      loading := false;
    }
  }

  /** The mismatch check comes first: a mismatched pair is never reported as too short. */
  lemma MismatchReportedFirst(password: string, confirmPassword: string)
    requires password != confirmPassword
    ensures Validate(password, confirmPassword) == Some(PasswordMismatch)
  {
  }

  /** The length bound is inclusive: a matching six-character password is accepted, five is not. */
  lemma SixCharactersAccepted(password: string)
    ensures |password| == 6 ==> Validate(password, password).None?
    ensures |password| == 5 ==> Validate(password, password) == Some(PasswordTooShort)
  {
  }
}

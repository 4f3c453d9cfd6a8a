/**
 * The form logic of src/components/auth/LoginForm.tsx: the form data, the
 * per-field error messages, and the gate that lets a submission reach the
 * auth store's signIn only when every field passes. Rendering, redirects
 * and logging are not part of this model.
 */
module LoginForm {
  import opened Types
  import opened Validation
  import opened AuthStore

  const EmailRequired := "Email is required"
  const EmailInvalid := "Please enter a valid email"
  const PasswordRequired := "Password is required"
  const PasswordTooShortToSignIn := "Password must be at least 6 characters"

  /** The named inputs of the form. */
  datatype LoginField = EmailField | PasswordField

  /**
   * The message validateForm shows under the email input: "required" for
   * an empty input, the format message for any other malformed one, and
   * nothing exactly when the email is well formed.
   */
  function EmailErrorOf(email: string): (e: Option<string>)
    ensures e.None? <==> ValidateEmail(email)
    ensures email == "" ==> e == Some(EmailRequired)
    ensures email != "" && e.Some? ==> e == Some(EmailInvalid)
  {
    EmptyEmailRejected();
    if email == "" then Some(EmailRequired)
    else if !ValidateEmail(email) then Some(EmailInvalid)
    else None
  }

  /**
   * The message validateForm shows under the password input: "required"
   * for an empty input, the length message for one of 1 to 5 characters,
   * and nothing exactly when it has at least 6 characters.
   */
  function PasswordErrorOf(password: string): (e: Option<string>)
    ensures e.None? <==> |password| >= 6
    ensures password == "" ==> e == Some(PasswordRequired)
    ensures 0 < |password| < 6 ==> e == Some(PasswordTooShortToSignIn)
  {
    if password == "" then Some(PasswordRequired)
    else if |password| < 6 then Some(PasswordTooShortToSignIn)
    else None
  }

  class LoginForm {
    var email: string
    var password: string
    /** `errors.email` and `errors.password`; `None` is undefined. */
    var emailError: Option<string>
    var passwordError: Option<string>

    /** The form as first rendered: empty fields, no errors. */
    constructor ()
      ensures email == "" && password == ""
      ensures emailError == None && passwordError == None
    {
      email, password := "", "";
      emailError, passwordError := None, None;
    }

    /**
     * handleChange: the named field takes the new value; its error is
     * cleared if one is shown; the other field and its error are untouched.
     */
    method HandleChange(field: LoginField, value: string)
      modifies this
      ensures field == EmailField ==>
        && email == value && password == old(password)
        && emailError == (if Truthy(old(emailError)) then None else old(emailError))
        && passwordError == old(passwordError)
      ensures field == PasswordField ==>
        && password == value && email == old(email)
        && passwordError == (if Truthy(old(passwordError)) then None else old(passwordError))
        && emailError == old(emailError)
    {
      match field {
        case EmailField =>
          email := value;
          if Truthy(emailError) {
            emailError := None;
          }
        case PasswordField =>
          password := value;
          if Truthy(passwordError) {
            passwordError := None;
          }
      }
    }

    /**
     * validateForm: both errors are recomputed from scratch, each field
     * getting at most one message, the "required" one taking precedence;
     * the form passes exactly when the email is well formed and the
     * password has at least 6 characters.
     */
    method ValidateForm() returns (ok: bool)
      modifies this
      ensures email == old(email) && password == old(password)
      ensures emailError == EmailErrorOf(email)
      ensures passwordError == PasswordErrorOf(password)
      ensures ok <==> emailError == None && passwordError == None
      ensures ok <==> ValidateEmail(email) && |password| >= 6
    {
      var newEmailError: Option<string> := None;
      var newPasswordError: Option<string> := None;
      if email == "" {
        newEmailError := Some(EmailRequired);
      } else if !ValidateEmail(email) {
        newEmailError := Some(EmailInvalid);
      }
      if password == "" {
        newPasswordError := Some(PasswordRequired);
      } else if |password| < 6 {
        newPasswordError := Some(PasswordTooShortToSignIn);
      }
      emailError, passwordError := newEmailError, newPasswordError;
      ok := newEmailError.None? && newPasswordError.None?;
      EmptyEmailRejected();
    }

    /**
     * handleSubmit: signIn is called with the form data only when
     * validateForm passes (`submitted` is what it was called with);
     * otherwise the auth store is left alone. Either way the errors shown
     * are the ones validateForm computed.
     */
    method HandleSubmit(auth: AuthStore, response: Settled<AuthResponse>)
      returns (submitted: Option<LoginCredentials>)
      requires auth.Valid()
      modifies this, auth
      ensures auth.Valid()
      ensures email == old(email) && password == old(password)
      ensures emailError == EmailErrorOf(email) && passwordError == PasswordErrorOf(password)
      ensures submitted.Some? <==> ValidateEmail(email) && |password| >= 6
      ensures submitted.None? ==> unchanged(auth)
      ensures submitted.Some? ==> submitted.value == LoginCredentials(email, password) && auth.SettledBy(response)
    {
      var ok := ValidateForm();
      if !ok {
        return None;
      }
      submitted := Some(LoginCredentials(email, password));
      auth.SignIn(submitted.value, response);
    }
  }
}

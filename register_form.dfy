/**
 * The form logic of src/components/auth/RegisterForm.tsx: the form data,
 * the per-field errors, the validation gate, and the order of the two auth
 * store calls a valid submission makes (signUp, then signIn with the same
 * email and password).
 *
 * `validateName` is imported by the form but not defined by the validation
 * module it names; its result for the current name is a parameter.
 */
module RegisterForm {
  import opened Types
  import opened Validation
  import opened AuthStore

  const EmailRequired := "Email is required"
  const EmailInvalid := "Please enter a valid email"
  const NameRequired := "Name is required"
  const PasswordRequired := "Password is required"
  const ConfirmRequired := "Please confirm your password"
  const PasswordsDiffer := "Passwords do not match"

  /** The named inputs of the form. */
  datatype RegisterField = EmailField | NameField | PasswordField | ConfirmPasswordField

  /**
   * One optional member of the `errors` object: absent, or present with a
   * value that may be undefined (`Set(None)`), which still counts as a key.
   */
  datatype Entry = Unset | Set(value: Option<string>)

  /** The `errors` object, one member per field. */
  datatype Errors = Errors(email: Entry, name: Entry, password: Entry, confirmPassword: Entry)
  {
    /** The member for a field. */
    function At(field: RegisterField): Entry {
      match field
      case EmailField => email
      case NameField => name
      case PasswordField => password
      case ConfirmPasswordField => confirmPassword
    }

    /** `{ ...this, [field]: entry }` */
    function With(field: RegisterField, entry: Entry): (r: Errors)
      ensures r.At(field) == entry
      ensures forall f :: f != field ==> r.At(f) == At(f)
    {
      match field
      case EmailField => this.(email := entry)
      case NameField => this.(name := entry)
      case PasswordField => this.(password := entry)
      case ConfirmPasswordField => this.(confirmPassword := entry)
    }

    /** `Object.keys(this).length` */
    function KeyCount(): (n: nat)
      ensures n == 0 <==> this == Errors(Unset, Unset, Unset, Unset)
    {
      (if email.Set? then 1 else 0) + (if name.Set? then 1 else 0)
      + (if password.Set? then 1 else 0) + (if confirmPassword.Set? then 1 else 0)
    }
  }

  /** The empty object `{}`. */
  const NoErrors := Errors(Unset, Unset, Unset, Unset)

  /** `errors[field]`: the message shown for a field, if any. */
  function ErrorOf(errors: Errors, field: RegisterField): Option<string> {
    match errors.At(field)
    case Unset => None
    case Set(value) => value
  }

  /** A call the form makes on the auth store. */
  datatype AuthCall = SignUpCall(registration: RegisterCredentials) | SignInCall(login: LoginCredentials)

  /**
   * The errors object validateForm builds. Each field gets at most one
   * member; an empty input gets its "required" message, which takes
   * precedence over a content message; the name gets the first message of
   * its check, and the password the first message of validatePassword.
   */
  function FormErrors(email: string, name: string, nameCheck: ValidationResult,
                      password: string, confirmPassword: string): Errors
  {
    Errors(
      if email == "" then Set(Some(EmailRequired))
      else if !ValidateEmail(email) then Set(Some(EmailInvalid))
      else Unset,
      if name == "" then Set(Some(NameRequired))
      else if !nameCheck.isValid then Set(if nameCheck.errors != [] then Some(nameCheck.errors[0]) else None)
      else Unset,
      if password == "" then Set(Some(PasswordRequired))
      else if !IsStrongPassword(password) then Set(Some(FirstPasswordError(password)))
      else Unset,
      if confirmPassword == "" then Set(Some(ConfirmRequired))
      else if password != confirmPassword then Set(Some(PasswordsDiffer))
      else Unset)
  }

  /** The errors object has no key exactly when every field passes its checks. */
  lemma FormErrorsEmptyIffValid(email: string, name: string, nameCheck: ValidationResult,
                                password: string, confirmPassword: string)
    ensures FormErrors(email, name, nameCheck, password, confirmPassword).KeyCount() == 0
      <==> ValidateEmail(email) && name != "" && nameCheck.isValid
           && IsStrongPassword(password) && confirmPassword == password
  {
    EmptyEmailRejected();
  }

  /** Every empty input is reported as required, whatever the other inputs hold. */
  lemma EmptyFieldsRequired(email: string, name: string, nameCheck: ValidationResult,
                            password: string, confirmPassword: string)
    ensures var errors := FormErrors(email, name, nameCheck, password, confirmPassword);
      && (email == "" ==> ErrorOf(errors, EmailField) == Some(EmailRequired))
      && (name == "" ==> ErrorOf(errors, NameField) == Some(NameRequired))
      && (password == "" ==> ErrorOf(errors, PasswordField) == Some(PasswordRequired))
      && (confirmPassword == "" ==> ErrorOf(errors, ConfirmPasswordField) == Some(ConfirmRequired))
  {
  }

  /**
   * A non-empty password shorter than 6 characters is shown the length
   * message of validatePassword, whatever else it lacks; a non-empty weak
   * password is shown one of the four password messages.
   */
  lemma ShortPasswordMessage(email: string, name: string, nameCheck: ValidationResult,
                             password: string, confirmPassword: string)
    ensures var e := ErrorOf(FormErrors(email, name, nameCheck, password, confirmPassword), PasswordField);
      && (0 < |password| < 6 ==> e == Some(PasswordTooShort))
      && (password != "" && !IsStrongPassword(password) ==>
            e.Some? && e.value in [PasswordTooShort, PasswordNeedsUppercase, PasswordNeedsLowercase, PasswordNeedsDigit])
  {
    if password != "" && !IsStrongPassword(password) {
      FailedMessagesOfFour(PasswordChecks(password));
    }
  }

  /**
   * A non-empty name whose check fails without any message still sets the
   * name key (to undefined): the form is refused while no message is shown
   * for the name.
   */
  lemma SilentNameRejection(email: string, name: string, nameCheck: ValidationResult,
                            password: string, confirmPassword: string)
    requires name != "" && !nameCheck.isValid && nameCheck.errors == []
    ensures var errors := FormErrors(email, name, nameCheck, password, confirmPassword);
      errors.KeyCount() > 0 && ErrorOf(errors, NameField) == None
  {
  }

  class RegisterForm {
    var email: string
    var password: string
    var confirmPassword: string
    var name: string
    var errors: Errors

    /** The form as first rendered: empty fields, no errors. */
    constructor ()
      ensures email == "" && password == "" && confirmPassword == "" && name == ""
      ensures errors == NoErrors
    {
      email, password, confirmPassword, name := "", "", "", "";
      errors := NoErrors;
    }

    /** The value currently held by an input. */
    function ValueOf(field: RegisterField): string
      reads this
    {
      match field
      case EmailField => email
      case NameField => name
      case PasswordField => password
      case ConfirmPasswordField => confirmPassword
    }

    /**
     * handleChange: the named field takes the new value and every other
     * field keeps its own; the field's error is set to undefined if one is
     * shown, and no other error changes.
     */
    method HandleChange(field: RegisterField, value: string)
      modifies this
      ensures ValueOf(field) == value
      ensures forall f :: f != field ==> ValueOf(f) == old(ValueOf(f))
      ensures errors == if Truthy(ErrorOf(old(errors), field)) then old(errors).With(field, Set(None)) else old(errors)
      ensures forall f :: f != field ==> ErrorOf(errors, f) == ErrorOf(old(errors), f)
      ensures ErrorOf(errors, field) == if Truthy(ErrorOf(old(errors), field)) then None else ErrorOf(old(errors), field)
    {
      match field {
        case EmailField => email := value;
        case NameField => name := value;
        case PasswordField => password := value;
        case ConfirmPasswordField => confirmPassword := value;
      }
      if Truthy(ErrorOf(errors, field)) {
        errors := errors.With(field, Set(None));
      }
    }

    /**
     * validateForm: the errors object is rebuilt from scratch as
     * `FormErrors` describes, and the form passes exactly when that object
     * has no key, that is when every field passes its checks.
     */
    method ValidateForm(nameCheck: ValidationResult) returns (ok: bool)
      modifies this
      ensures email == old(email) && password == old(password)
      ensures confirmPassword == old(confirmPassword) && name == old(name)
      ensures errors == FormErrors(email, name, nameCheck, password, confirmPassword)
      ensures ok <==> errors.KeyCount() == 0
      ensures ok <==> ValidateEmail(email) && name != "" && nameCheck.isValid
                      && IsStrongPassword(password) && confirmPassword == password
    {
      ghost var spec := FormErrors(email, name, nameCheck, password, confirmPassword);
      var newErrors := NoErrors;
      if email == "" {
        newErrors := newErrors.(email := Set(Some(EmailRequired)));
      } else if !ValidateEmail(email) {
        newErrors := newErrors.(email := Set(Some(EmailInvalid)));
      }
      assert newErrors.email == spec.email;
      if name == "" {
        newErrors := newErrors.(name := Set(Some(NameRequired)));
      } else if !nameCheck.isValid {
        // `errors[0]` of an empty list is undefined, and the key is set all the same
        newErrors := newErrors.(name := Set(if nameCheck.errors != [] then Some(nameCheck.errors[0]) else None));
      }
      assert newErrors.name == spec.name;
      var passwordCheck := ValidatePassword(password);
      assert !passwordCheck.isValid ==> passwordCheck.errors[0] == FirstPasswordError(password);
      if password == "" {
        newErrors := newErrors.(password := Set(Some(PasswordRequired)));
      } else if !passwordCheck.isValid {
        newErrors := newErrors.(password := Set(Some(passwordCheck.errors[0])));
      }
      assert newErrors.password == spec.password;
      if confirmPassword == "" {
        newErrors := newErrors.(confirmPassword := Set(Some(ConfirmRequired)));
      } else if password != confirmPassword {
        newErrors := newErrors.(confirmPassword := Set(Some(PasswordsDiffer)));
      }
      assert newErrors.confirmPassword == spec.confirmPassword;
      assert newErrors == spec;
      errors := newErrors;
      ok := newErrors.KeyCount() == 0;
      FormErrorsEmptyIffValid(email, name, nameCheck, password, confirmPassword);
    }

    /**
     * handleSubmit: when validateForm fails, neither signUp nor signIn is
     * called and the auth store is untouched; otherwise signUp is called
     * with the email, password and name, then signIn with the same email
     * and password. The store's flags and error are those signIn settles
     * to; its user is signIn's, or else the one signUp left behind.
     */
    method HandleSubmit(auth: AuthStore, nameCheck: ValidationResult,
                        signUpResponse: Settled<AuthResponse>, signInResponse: Settled<AuthResponse>)
      returns (calls: seq<AuthCall>)
      requires auth.Valid()
      modifies this, auth
      ensures auth.Valid()
      ensures email == old(email) && password == old(password) && name == old(name)
      ensures confirmPassword == old(confirmPassword)
      ensures errors == FormErrors(email, name, nameCheck, password, confirmPassword)
      ensures calls == [] <==> !(ValidateEmail(email) && name != "" && nameCheck.isValid
                                 && IsStrongPassword(password) && confirmPassword == password)
      ensures calls == [] ==> unchanged(auth)
      ensures calls != [] ==> calls == [SignUpCall(RegisterCredentials(email, password, name)),
                                        SignInCall(LoginCredentials(email, password))]
      ensures calls != [] ==>
        && auth.user == UserAfter(signInResponse, UserAfter(signUpResponse, old(auth.user)))
        && auth.isLoading == LoadingAfter(signInResponse)
        && auth.error == ErrorAfter(signInResponse)
    {
      var ok := ValidateForm(nameCheck);
      if !ok {
        return [];
      }
      var registration := RegisterCredentials(email, password, name);
      auth.SignUp(registration, signUpResponse);
      var login := LoginCredentials(email, password);
      auth.SignIn(login, signInResponse);
      calls := [SignUpCall(registration), SignInCall(login)];
    }
  }
}

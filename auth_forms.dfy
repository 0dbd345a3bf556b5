/**
 * The landing page's access panel: the sign-up and login forms, their
 * per-field error maps and what a submission does. The e-mail check is a
 * regular expression this model does not reproduce; it is passed in as the
 * predicate `validateEmail`.
 */
module AuthForms {
  import opened Wrappers
  import opened JsText
  import opened Rut
  import opened Password

  datatype SignupForm = SignupForm(fullName: string, rut: string, email: string,
                                   password: string, confirm: string)

  datatype LoginForm = LoginForm(email: string, password: string, remember: bool)

  datatype SignupField = FullName | RutField | Email | PasswordField | Confirm

  datatype LoginField = LoginEmail | LoginPassword

  datatype AuthMode = Login | Signup

  const EmptySignup: SignupForm := SignupForm("", "", "", "", "")
  const EmptyLogin: LoginForm := LoginForm("", "", true)

  function SignupMessage(f: SignupField): string {
    match f
    case FullName => "Ingresa tu nombre"
    case RutField => "RUT no v\U{00E1}lido"
    case Email => "Correo inv\U{00E1}lido"
    case PasswordField => "Refuerza tu clave"
    case Confirm => "Las claves no coinciden"
  }

  function LoginMessage(f: LoginField): string {
    match f
    case LoginEmail => "Correo inv\U{00E1}lido"
    case LoginPassword => "Ingresa tu clave"
  }

  /**
   * When a sign-up field is in error, stated field by field: a blank name,
   * an invalid RUT, a rejected e-mail, a password short of the full score,
   * a confirmation that differs from the password.
   */
  predicate SignupFails(f: SignupField, form: SignupForm, validateEmail: string -> bool) {
    match f
    case FullName => forall i :: 0 <= i < |form.fullName| ==> IsWhitespace(form.fullName[i])
    case RutField => !IsValidRut(form.rut)
    case Email => !validateEmail(form.email)
    case PasswordField => Score(form.password) < 4
    case Confirm => form.confirm != form.password
  }

  /** When a login field is in error: a rejected e-mail or an empty password. */
  predicate LoginFails(f: LoginField, form: LoginForm, validateEmail: string -> bool) {
    match f
    case LoginEmail => !validateEmail(form.email)
    case LoginPassword => form.password == ""
  }

  /** `length < 10 || passwordRules.some((rule) => !rule.test(password))` is a score below 4. */
  lemma WeakIffShortOfFullScore(password: string)
    ensures (|password| < MIN_PASSWORD_LENGTH || exists r :: r in PasswordRules && !Passes(r, password))
            <==> Score(password) < 4
  {
    EveryRuleListed();
    if Score(password) < 4 {
      var r :| !Passes(r, password);
      assert r in PasswordRules;
    }
  }

  /** The name check: the trimmed name is empty. */
  method CheckFullName(form: SignupForm, validateEmail: string -> bool) returns (blank: bool)
    ensures blank == SignupFails(FullName, form, validateEmail)
  {
    blank := Trim(form.fullName) == [];
  }

  /** The password check: shorter than ten characters or failing one of the rules. */
  method CheckPassword(form: SignupForm, validateEmail: string -> bool) returns (weak: bool)
    ensures weak == SignupFails(PasswordField, form, validateEmail)
  {
    weak := |form.password| < MIN_PASSWORD_LENGTH
            || exists r :: r in PasswordRules && !Passes(r, form.password);
    WeakIffShortOfFullScore(form.password);
  }

  /** The error map for a set of per-field outcomes: one message per failing field. */
  method ErrorMap(blank: bool, rutValid: bool, emailValid: bool, weak: bool, mismatch: bool)
    returns (errors: map<SignupField, string>)
    ensures forall f :: f in errors ==> errors[f] == SignupMessage(f)
    ensures forall f :: f in errors <==>
      ((f == FullName && blank) || (f == RutField && !rutValid) || (f == Email && !emailValid)
       || (f == PasswordField && weak) || (f == Confirm && mismatch))
  {
    errors := map[];
    if blank {
      errors := errors[FullName := SignupMessage(FullName)];
    }
    if !rutValid {
      errors := errors[RutField := SignupMessage(RutField)];
    }
    if !emailValid {
      errors := errors[Email := SignupMessage(Email)];
    }
    if weak {
      errors := errors[PasswordField := SignupMessage(PasswordField)];
    }
    if mismatch {
      errors := errors[Confirm := SignupMessage(Confirm)];
    }
  }

  /** `validateSignup`: checks each field in turn and collects the messages. */
  method ValidateSignup(form: SignupForm, validateEmail: string -> bool)
    returns (errors: map<SignupField, string>)
    ensures forall f :: f in errors <==> SignupFails(f, form, validateEmail)
    ensures forall f :: f in errors ==> errors[f] == SignupMessage(f)
  {
    var blank := CheckFullName(form, validateEmail);
    var rutValid := ValidateRut(form.rut);
    var emailValid := validateEmail(form.email);
    var weak := CheckPassword(form, validateEmail);
    errors := ErrorMap(blank, rutValid, emailValid, weak, form.confirm != form.password);
  }

  /** `validateLogin`. */
  method ValidateLogin(form: LoginForm, validateEmail: string -> bool)
    returns (errors: map<LoginField, string>)
    ensures forall f :: f in errors <==> LoginFails(f, form, validateEmail)
    ensures forall f :: f in errors ==> errors[f] == LoginMessage(f)
  {
    errors := map[];
    if !validateEmail(form.email) {
      errors := errors[LoginEmail := LoginMessage(LoginEmail)];
    }
    if form.password == "" {
      errors := errors[LoginPassword := LoginMessage(LoginPassword)];
    }
  }

  /** A form that passes every check: its password scores "Blindada" and the confirmation matches. */
  lemma AcceptedSignupIsStrong(form: SignupForm, validateEmail: string -> bool)
    requires forall f :: !SignupFails(f, form, validateEmail)
    ensures StrengthOf(Score(form.password)).caption == "Blindada"
    ensures IsValidRut(form.rut) && form.confirm == form.password
    ensures |form.password| >= MIN_PASSWORD_LENGTH
  {
    assert !SignupFails(PasswordField, form, validateEmail);
    assert !SignupFails(RutField, form, validateEmail);
    assert !SignupFails(Confirm, form, validateEmail);
    assert Passes(MinLength, form.password);
  }

  /** The state of the access panel. */
  class AuthPanel {
    var activeMode: Option<AuthMode>
    var signupForm: SignupForm
    var loginForm: LoginForm
    var signupErrors: map<SignupField, string>
    var loginErrors: map<LoginField, string>

    constructor ()
      ensures activeMode == None && signupForm == EmptySignup && loginForm == EmptyLogin
      ensures signupErrors == map[] && loginErrors == map[]
    {
      activeMode := None;
      signupForm := EmptySignup;
      loginForm := EmptyLogin;
      signupErrors := map[];
      loginErrors := map[];
    }

    /**
     * Submitting the sign-up form: the errors are always shown; only an
     * empty error map closes the panel and clears the form.
     */
    method SubmitSignup(validateEmail: string -> bool)
      modifies this
      ensures forall f :: f in signupErrors <==> SignupFails(f, old(signupForm), validateEmail)
      ensures forall f :: f in signupErrors ==> signupErrors[f] == SignupMessage(f)
      ensures signupErrors == map[] ==> activeMode == None && signupForm == EmptySignup
      ensures signupErrors != map[] ==> activeMode == old(activeMode) && signupForm == old(signupForm)
      ensures loginForm == old(loginForm) && loginErrors == old(loginErrors)
    {
      var errors := ValidateSignup(signupForm, validateEmail);
      signupErrors := errors;
      if |errors.Keys| == 0 {
        activeMode := None;
        signupForm := EmptySignup;
      }
    }

    /** Submitting the login form, with the same rule as sign-up. */
    method SubmitLogin(validateEmail: string -> bool)
      modifies this
      ensures forall f :: f in loginErrors <==> LoginFails(f, old(loginForm), validateEmail)
      ensures forall f :: f in loginErrors ==> loginErrors[f] == LoginMessage(f)
      ensures loginErrors == map[] ==> activeMode == None && loginForm == EmptyLogin
      ensures loginErrors != map[] ==> activeMode == old(activeMode) && loginForm == old(loginForm)
      ensures signupForm == old(signupForm) && signupErrors == old(signupErrors)
    {
      var errors := ValidateLogin(loginForm, validateEmail);
      loginErrors := errors;
      if |errors.Keys| == 0 {
        activeMode := None;
        loginForm := EmptyLogin;
      }
    }
  }

  /** A sign-up submission succeeds exactly when no field fails. */
  lemma SignupSucceedsIffNoFailure(errors: map<SignupField, string>, form: SignupForm,
                                   validateEmail: string -> bool)
    requires forall f :: f in errors <==> SignupFails(f, form, validateEmail)
    ensures errors == map[] <==> forall f :: !SignupFails(f, form, validateEmail)
  {
    if errors != map[] {
      var f :| f in errors;
    }
  }
}

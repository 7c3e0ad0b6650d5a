/** src/app/pages/authentication/register/register.component.ts: the sign-up form, its
    step-by-step validation and the submit guard. */
module Register {
  import opened Wrappers
  import opened Text
  import opened Ui
  import opened AccountForms

  const PasswordRequired := "La contraseña es requerida"

  /** The sign-up password check: required, then at least six characters. */
  function RegisterPasswordError(password: string): (m: string)
    ensures m == "" <==> |password| >= 6
    ensures password == "" ==> m == PasswordRequired
    ensures password != "" && |password| < 6 ==> m == PasswordTooShort
  {
    if password == "" then PasswordRequired
    else if |password| < 6 then PasswordTooShort
    else ""
  }

  /** The errors `validateForm` leaves for the given values. */
  function RegisterErrors(d: AccountData): FormErrors
  {
    FormErrors(EmailError(d.email), RegisterPasswordError(d.password), NameError(d.name), LastNameError(d.lastName))
  }

  /** The sign-up form is accepted. */
  predicate RegisterFormValid(d: AccountData)
  {
    RegisterErrors(d) == NoErrors
  }

  /** What acceptance means field by field: both names not blank, an institutional address
      without two dots in a row, and a password of at least six characters. */
  lemma RegisterFormValidMeaning(d: AccountData)
    ensures RegisterFormValid(d) <==>
      !IsBlank(d.name) && !IsBlank(d.lastName) &&
      !Contains(d.email, "..") && MatchesInstitutionalPattern(d.email) && |d.password| >= 6
  {
    EmailErrorMeaning(d.email);
    var e := RegisterErrors(d);
    assert RegisterFormValid(d) <==> e.email == "" && e.password == "" && e.name == "" && e.lastName == "";
  }

  /** A service call of this page. */
  datatype AccountCall = RegisterCall(data: AccountData)

  const InvalidFormMessage := "Por favor, complete todos los campos correctamente."
  const RegisteredMessage := "Registro exitoso. Por favor, inicia sesión."
  const RegisterFailedMessage := "Hubo un problema al registrar el usuario. Por favor, intenta nuevamente."

  class RegisterPage {
    var userData: AccountData
    var formErrors: FormErrors
    var showErrors: bool

    constructor ()
      ensures userData == AccountData("", "", "", "") && formErrors == NoErrors && !showErrors
    {
      userData := AccountData("", "", "", "");
      formErrors := NoErrors;
      showErrors := false;
    }

    /** `validateForm`: starts from no errors, then checks the name, the last name, the e-mail
        (at most one message) and the password in turn; valid when no check failed. */
    method ValidateForm() returns (isValid: bool)
      modifies this`formErrors
      ensures formErrors == RegisterErrors(userData)
      ensures isValid <==> RegisterFormValid(userData)
    {
      var d := userData;
      isValid := true;
      var email, password, name, lastName := "", "", "", "";

      if Trim(d.name) == "" {
        name := NameRequired;
        isValid := false;
      }

      if Trim(d.lastName) == "" {
        lastName := LastNameRequired;
        isValid := false;
      }

      if Trim(d.email) == "" {
        email := EmailRequired;
        isValid := false;
      } else if Contains(d.email, "..") {
        email := ConsecutiveDots;
        isValid := false;
      } else if !IsInstitutionalEmail(d.email) {
        email := NotInstitutional;
        isValid := false;
      }

      if d.password == "" {
        password := PasswordRequired;
        isValid := false;
      } else if |d.password| < 6 {
        password := PasswordTooShort;
        isValid := false;
      }
      formErrors := FormErrors(email, password, name, lastName);
    }

    /** `onSubmit`: shows the errors; an invalid form gets an error notice and no call;
        otherwise the values are sent, and success leads to the login page while failure
        shows the server's message or a generic one. */
    method OnSubmit(response: Result<()>) returns (notices: seq<Notice>, calls: seq<AccountCall>, navigation: Option<string>)
      modifies this
      ensures showErrors && userData == old(userData) && formErrors == RegisterErrors(userData)
      ensures !RegisterFormValid(userData) ==> notices == [Error(InvalidFormMessage)] && calls == [] && navigation == None
      ensures RegisterFormValid(userData) ==> calls == [RegisterCall(userData)]
      ensures RegisterFormValid(userData) && response.Ok? ==>
        (notices == [SuccessAlert(RegisteredMessage)] && navigation == Some("/login"))
      ensures RegisterFormValid(userData) && response.Err? ==>
        (notices == [Error(ServerDetailOr(response.error, RegisterFailedMessage))] && navigation == None)
    {
      showErrors := true;
      var valid := ValidateForm();
      if !valid {
        return [Error(InvalidFormMessage)], [], None;
      }
      calls := [RegisterCall(userData)];
      if response.Ok? {
        notices := [SuccessAlert(RegisteredMessage)];
        navigation := Some("/login");
      } else {
        notices := [Error(ServerDetailOr(response.error, RegisterFailedMessage))];
        navigation := None;
      }
    }
  }
}

/** The registration page: its ordered form checks, the field flags it shows
    while the user types, and its submit handler. */
module Register {
  import opened Domain
  import opened Forms
  import opened Session

  datatype RegisterForm = RegisterForm(name: string, password: string, confirmPassword: string)

  const MinPasswordLength: nat := 6

  predicate AllFilled(f: RegisterForm)
  {
    f.name != "" && f.password != "" && f.confirmPassword != ""
  }

  /** `handleSubmit`'s checks in their order: every field filled, then the two
      passwords equal, then the password at least six characters long. */
  function ValidateRegistration(f: RegisterForm): (r: Option<FormError>)
    ensures r == Some(AllFieldsRequired) <==> !AllFilled(f)
    ensures r == Some(PasswordsDoNotMatch) <==> AllFilled(f) && f.password != f.confirmPassword
    ensures r == Some(PasswordTooShort) <==>
              AllFilled(f) && f.password == f.confirmPassword && |f.password| < MinPasswordLength
    ensures r == None <==>
              AllFilled(f) && f.password == f.confirmPassword && |f.password| >= MinPasswordLength
  {
    if !AllFilled(f) then Some(AllFieldsRequired)
    else if f.password != f.confirmPassword then Some(PasswordsDoNotMatch)
    else if |f.password| < MinPasswordLength then Some(PasswordTooShort)
    else None
  }

  /** The name field is shown in error while it is empty. */
  function NameFlagged(f: RegisterForm): (b: bool)
    ensures b ==> ValidateRegistration(f) == Some(AllFieldsRequired)
  {
    f.name == ""
  }

  /** The password field is shown in error while it is non-empty and too short. */
  function PasswordFlagged(f: RegisterForm): (b: bool)
    ensures b && f.name != "" && f.confirmPassword == f.password ==>
              ValidateRegistration(f) == Some(PasswordTooShort)
  {
    0 < |f.password| < MinPasswordLength
  }

  /** The confirmation field is shown in error while it is non-empty and differs. */
  function ConfirmFlagged(f: RegisterForm): (b: bool)
    ensures b && AllFilled(f) ==> ValidateRegistration(f) == Some(PasswordsDoNotMatch)
  {
    |f.confirmPassword| > 0 && f.password != f.confirmPassword
  }

  /** The submit checks pass exactly when no field is flagged and neither
      password field is empty; an empty password or confirmation is refused
      without any field being flagged. */
  lemma AcceptedIffNothingFlagged(f: RegisterForm)
    ensures ValidateRegistration(f) == None <==>
              f.password != "" && f.confirmPassword != ""
              && !NameFlagged(f) && !PasswordFlagged(f) && !ConfirmFlagged(f)
  {
  }

  /** When both passwords are filled in, the error the submit reports is one
      the form already flags: a mismatch on the confirmation field, a short
      password on the password field. */
  lemma RejectionIsFlagged(f: RegisterForm)
    requires f.password != "" && f.confirmPassword != ""
    ensures ValidateRegistration(f) == Some(AllFieldsRequired) ==> NameFlagged(f)
    ensures ValidateRegistration(f) == Some(PasswordsDoNotMatch) ==> ConfirmFlagged(f)
    ensures ValidateRegistration(f) == Some(PasswordTooShort) ==> PasswordFlagged(f) && !ConfirmFlagged(f)
  {
  }

  /** The request body: the form without `confirmPassword`. */
  function RegisterBody(f: RegisterForm): (r: Credentials)
    ensures r.name == f.name && r.password == f.password
  {
    Credentials(f.name, f.password)
  }

  /** Two forms give the same body exactly when they agree on name and password. */
  lemma RegisterBodyForgetsConfirmation(f: RegisterForm, g: RegisterForm)
    ensures RegisterBody(f) == RegisterBody(g) <==> f.name == g.name && f.password == g.password
  {
  }

  datatype RegisterField = NameField | PasswordField | ConfirmPasswordField

  const RegisterFallback := "Registration failed"
  const RegisteredText := "Family registered successfully!"

  class RegisterPage {
    var form: RegisterForm
    var loading: bool
    const store: SessionStore

    constructor(store: SessionStore)
      ensures form == RegisterForm("", "", "") && !loading && this.store == store
    {
      form := RegisterForm("", "", "");
      loading := false;
      this.store := store;
    }

    /** `handleChange`: one field takes the typed value. */
    method HandleChange(field: RegisterField, value: string)
      modifies this
      ensures loading == old(loading)
      ensures form == match field
                      case NameField => old(form).(name := value)
                      case PasswordField => old(form).(password := value)
                      case ConfirmPasswordField => old(form).(confirmPassword := value)
    {
      match field
      case NameField => form := form.(name := value);
      case PasswordField => form := form.(password := value);
      case ConfirmPasswordField => form := form.(confirmPassword := value);
    }

    /** `handleSubmit`. A failed check sends nothing and stores nothing; a sent
        request stores the session only when the response carries both a token
        and a family; `loading` is false afterwards on every path. */
    method HandleSubmit(response: ApiResult<AuthResponse>) returns (request: Option<Request>, notice: Notice)
      modifies this, store
      ensures form == old(form) && !loading
      ensures request.Some? <==> ValidateRegistration(form) == None
      ensures request.Some? ==> request.value == PostRegister(RegisterBody(form))
      ensures ValidateRegistration(form).Some? ==> notice == Failure(Message(ValidateRegistration(form).value))
      ensures request.Some? && Grants(response) ==>
                store.token == response.body.token && store.family == response.body.family
                && notice == Success(RegisteredText)
      ensures !(request.Some? && Grants(response)) ==>
                store.token == old(store.token) && store.family == old(store.family)
      ensures request.Some? && response.Ok? && !CarriesSession(response.body) ==>
                notice == Failure(RegisterFallback)
      ensures request.Some? && response.Err? ==>
                notice == Failure(ErrorText(response.message, RegisterFallback))
    {
      loading := true;
      var check := ValidateRegistration(form);
      if check.Some? {
        notice := Failure(Message(check.value));
        request := None;
        loading := false;
        return;
      }
      request := Some(PostRegister(RegisterBody(form)));
      match response {
        case Ok(body) =>
          if CarriesSession(body) {
            store.Save(body.token.value, body.family.value);
            notice := Success(RegisteredText);
          } else {
            // the "invalid response" error is thrown without a response: the fallback text
            notice := Failure(RegisterFallback);
          }
        case Err(message) =>
          notice := Failure(ErrorText(message, RegisterFallback));
      }
      loading := false;
    }
  }
}

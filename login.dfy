/** The login page: its emptiness check, its field flags and its submit handler. */
module Login {
  import opened Domain
  import opened Forms
  import opened Session

  /** `handleSubmit`'s only check: name and password both filled in. */
  function ValidateLogin(f: Credentials): (r: Option<FormError>)
    ensures r == None <==> f.name != "" && f.password != ""
    ensures r != None ==> r == Some(AllFieldsRequired)
  {
    if f.name == "" || f.password == "" then Some(AllFieldsRequired) else None
  }

  /** The name field is shown in error while it is empty. */
  function NameFlagged(f: Credentials): (b: bool)
    ensures b ==> ValidateLogin(f) == Some(AllFieldsRequired)
  {
    f.name == ""
  }

  /** The password field is shown in error while it is empty. */
  function PasswordFlagged(f: Credentials): (b: bool)
    ensures b ==> ValidateLogin(f) == Some(AllFieldsRequired)
  {
    f.password == ""
  }

  /** The flags shown on the form predict the submit check exactly. */
  lemma AcceptedIffNothingFlagged(f: Credentials)
    ensures ValidateLogin(f) == None <==> !NameFlagged(f) && !PasswordFlagged(f)
  {
  }

  datatype LoginField = NameField | PasswordField

  const LoginFallback := "Login failed"
  const LoggedInText := "Login successful!"

  class LoginPage {
    var form: Credentials
    var loading: bool
    const store: SessionStore

    constructor(store: SessionStore)
      ensures form == Credentials("", "") && !loading && this.store == store
    {
      form := Credentials("", "");
      loading := false;
      this.store := store;
    }

    /** `handleChange`: one field takes the typed value. */
    method HandleChange(field: LoginField, value: string)
      modifies this
      ensures loading == old(loading)
      ensures form == match field
                      case NameField => old(form).(name := value)
                      case PasswordField => old(form).(password := value)
    {
      match field
      case NameField => form := form.(name := value);
      case PasswordField => form := form.(password := value);
    }

    /** `handleSubmit`. An empty field sends nothing; the form itself is the
        request body; the session is stored only when the response carries
        both a token and a family; `loading` is false afterwards on every path. */
    method HandleSubmit(response: ApiResult<AuthResponse>) returns (request: Option<Request>, notice: Notice)
      modifies this, store
      ensures form == old(form) && !loading
      ensures request.Some? <==> ValidateLogin(form) == None
      ensures request.Some? ==> request.value == PostLogin(form)
      ensures request.None? ==> notice == Failure(Message(AllFieldsRequired))
      ensures request.Some? && Grants(response) ==>
                store.token == response.body.token && store.family == response.body.family
                && notice == Success(LoggedInText)
      ensures !(request.Some? && Grants(response)) ==>
                store.token == old(store.token) && store.family == old(store.family)
      ensures request.Some? && response.Ok? && !CarriesSession(response.body) ==>
                notice == Failure(LoginFallback)
      ensures request.Some? && response.Err? ==>
                notice == Failure(ErrorText(response.message, LoginFallback))
    {
      loading := true;
      var check := ValidateLogin(form);
      if check.Some? {
        notice := Failure(Message(check.value));
        request := None;
        loading := false;
        return;
      }
      request := Some(PostLogin(form));
      match response {
        case Ok(body) =>
          if CarriesSession(body) {
            store.Save(body.token.value, body.family.value);
            notice := Success(LoggedInText);
          } else {
            // the "invalid response" error is thrown without a response: the fallback text
            notice := Failure(LoginFallback);
          }
        case Err(message) =>
          notice := Failure(ErrorText(message, LoginFallback));
      }
      loading := false;
    }
  }
}

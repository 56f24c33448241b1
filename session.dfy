/** The browser storage the client keeps its session in: a bearer token and
    the record of the active family. */
module Session {
  import opened Domain

  /** The body of a login or registration response. */
  datatype AuthResponse = AuthResponse(token: Option<string>, family: Option<FamilySummary>)

  /** `response.data.token && response.data.family`: an empty token is falsy. */
  function CarriesSession(r: AuthResponse): (b: bool)
    ensures b ==> r.token.Some? && r.family.Some?
    ensures r.token == Some("") ==> !b
  {
    r.token.Some? && r.token.value != "" && r.family.Some?
  }

  /** A sent authentication request whose response lets the page store a session. */
  predicate Grants(response: ApiResult<AuthResponse>)
  {
    response.Ok? && CarriesSession(response.body)
  }

  class SessionStore {
    var token: Option<string>
    var family: Option<FamilySummary>

    /** Storage with nothing in it. */
    constructor()
      ensures token == None && family == None
    {
      token := None;
      family := None;
    }

    /** `!token || !familyData` is false: a page may fetch the family. */
    function HasSession(): (b: bool)
      reads this
      ensures b ==> token.Some? && family.Some?
      ensures token == Some("") ==> !b
    {
      token.Some? && token.value != "" && family.Some?
    }

    /** The two `localStorage.setItem` calls after a successful authentication. */
    method Save(t: string, f: FamilySummary)
      modifies this
      ensures token == Some(t) && family == Some(f)
      ensures HasSession() <==> t != ""
    {
      token := Some(t);
      family := Some(f);
    }

    /** `handleLogout`'s two `localStorage.removeItem` calls. */
    method Clear()
      modifies this
      ensures token == None && family == None
      ensures !HasSession()
    {
      token := None;
      family := None;
    }
  }
}

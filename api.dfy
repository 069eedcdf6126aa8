/** The mock API client: request headers built from the stored token, the
    response check that turns a failed HTTP status into a thrown error, and
    the mock `auth` endpoints, which answer from fixed credentials without
    any network traffic. */
module Api {

  import opened Common

  datatype Role = Admin | User

  datatype ApiUser = ApiUser(id: string, name: string, email: string, role: Role)

  datatype AuthResponse = AuthResponse(user: ApiUser, token: string)

  const TokenKey: string := "token"

  const AdminEmail: string := "admin@gmail.com"
  const AdminPassword: string := "admin1234"
  const UserEmail: string := "user@gmail.com"
  const UserPassword: string := "user1234"

  datatype Headers = Headers(contentType: string, authorization: string)

  /** `getHeaders`: JSON content type always; a bearer token when a non-empty
      token is stored, and an empty Authorization value otherwise. */
  function GetHeaders(store: LocalStorage): (h: Headers)
    reads store
    ensures h.contentType == "application/json"
    ensures TokenKey in store.items && store.items[TokenKey] != "" ==>
      h.authorization == "Bearer " + store.items[TokenKey]
    ensures !(TokenKey in store.items && store.items[TokenKey] != "") ==> h.authorization == ""
  {
    var token := store.GetItem(TokenKey);
    Headers("application/json", if Truthy(token) then "Bearer " + token.value else "")
  }

  /** `auth.logout`: removes the stored token and nothing else. */
  method Logout(store: LocalStorage)
    modifies store
    ensures store.items == old(store.items) - {TokenKey}
    ensures GetHeaders(store).authorization == ""
  {
    store.RemoveItem(TokenKey);
  }

  /** `auth.login`: the exact admin pair gets the admin account, the exact
      user pair the regular account, and anything else a demo user account;
      it never fails. */
  function Login(email: string, password: string): (r: AuthResponse)
    ensures r.user.email == email
    ensures r.user.role == Admin <==> email == AdminEmail && password == AdminPassword
  {
    if email == AdminEmail && password == AdminPassword then
      AuthResponse(ApiUser("admin-1", "Admin User", email, Admin), "mock-admin-token")
    else if email == UserEmail && password == UserPassword then
      AuthResponse(ApiUser("user-1", "Regular User", email, User), "mock-user-token")
    else
      AuthResponse(ApiUser("1", "Demo User", email, User), "mock-jwt-token")
  }

  /** `auth.register`: always a regular account carrying the given name and email. */
  function Register(name: string, email: string, password: string): (r: AuthResponse)
    ensures r.user.role == User
    ensures r.user.name == name && r.user.email == email
    ensures r.user.id == "1" && r.token == "mock-jwt-token"
  {
    AuthResponse(ApiUser("1", name, email, User), "mock-jwt-token")
  }

  lemma LoginAdmin()
    ensures Login(AdminEmail, AdminPassword)
      == AuthResponse(ApiUser("admin-1", "Admin User", AdminEmail, Admin), "mock-admin-token")
  {
  }

  lemma LoginUser()
    ensures Login(UserEmail, UserPassword)
      == AuthResponse(ApiUser("user-1", "Regular User", UserEmail, User), "mock-user-token")
  {
  }

  /** Every other pair, a known email with a wrong password included, gets
      the demo account. */
  lemma {:induction false} LoginOther(email: string, password: string)
    requires !(email == AdminEmail && password == AdminPassword)
    requires !(email == UserEmail && password == UserPassword)
    ensures Login(email, password).user == ApiUser("1", "Demo User", email, User)
    ensures Login(email, password).token == "mock-jwt-token"
  {
  }

  // ---------------------------------------------------------------------------
  // handleResponse

  /** A response body as `response.json()` sees it: text that does not parse,
      or a JSON object whose string-valued fields are given. */
  datatype Body = Malformed | Object(fields: map<string, string>)

  datatype Response = Response(ok: bool, body: Body)

  /** What `handleResponse` throws: an `Error` with a message, or the parse
      failure of `response.json()` on a successful status. */
  datatype Failure = ErrorThrown(message: string) | SyntaxError

  datatype Outcome = Returned(value: Body) | Thrown(failure: Failure)

  /** The `message` an error body contributes, after the parse-failure
      fallback object has replaced a malformed body. */
  function ErrorMessage(body: Body): (m: Option<string>)
    ensures body.Malformed? ==> m == Some("An error occurred")
    ensures body.Object? ==> (m.Some? <==> "message" in body.fields)
    ensures body.Object? && "message" in body.fields ==> m == Some(body.fields["message"])
  {
    match body
    case Malformed => Some("An error occurred")
    case Object(fields) => if "message" in fields then Some(fields["message"]) else None
  }

  function HandleResponse(response: Response): (r: Outcome)
    ensures !response.ok ==> r.Thrown? && r.failure.ErrorThrown?
    ensures response.ok && response.body.Object? ==> r == Returned(response.body)
    ensures response.ok && response.body.Malformed? ==> r == Thrown(SyntaxError)
  {
    if !response.ok then
      var m := ErrorMessage(response.body);
      Thrown(ErrorThrown(if Truthy(m) then m.value else "API request failed"))
    else if response.body.Malformed? then Thrown(SyntaxError)
    else Returned(response.body)
  }

  /** The message thrown on a failed status: the body's non-empty `message`,
      else the generic text, and the fallback text for a body that does not
      parse. */
  lemma {:induction false} FailedStatusMessage(body: Body)
    ensures var r := HandleResponse(Response(false, body));
      r.Thrown? && r.failure.ErrorThrown? &&
      r.failure.message ==
        match body
        case Malformed => "An error occurred"
        case Object(fields) =>
          if "message" in fields && fields["message"] != "" then fields["message"]
          else "API request failed"
  {
  }
}

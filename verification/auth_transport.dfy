/** The auth transport (`authRequest` and the `authApi` table): which request
    each remote operation sends, and how a response or a failure becomes
    the value returned or the `Error` thrown. The exchange with the server
    itself is a parameter. */
module AuthTransport {
  import opened Js
  import opened Profile

  // ---------------------------------------------------------------------
  // Endpoint table

  datatype Endpoint =
    | Login | Register | RefreshToken | Logout | GetProfile | UpdateProfile | ChangePassword

  datatype HttpMethod = GET | POST | PUT

  type Headers = map<string, string>

  /** The `options` object each `authApi` member passes to `authRequest`:
      its HTTP method (`verb`), its own `headers` (absent when the member sets none) and
      whether it carries a JSON `body`. */
  datatype RequestInit = RequestInit(verb: HttpMethod, headers: Option<Headers>, hasBody: bool)

  /** The request `fetch` receives. */
  datatype Request = Request(url: string, verb: HttpMethod, headers: Headers, hasBody: bool)

  const ContentTypeHeader: string := "Content-Type"
  const AuthorizationHeader: string := "Authorization"
  const JsonContentType: Headers := map[ContentTypeHeader := "application/json"]

  function BearerHeaders(token: string): Headers {
    map[AuthorizationHeader := "Bearer " + token]
  }

  /** The path each operation appends to the auth base URL. */
  function PathOf(e: Endpoint): string {
    match e
    case Login => "/login"
    case Register => "/register"
    case RefreshToken => "/refresh-token"
    case Logout => "/logout"
    case GetProfile => "/profile"
    case UpdateProfile => "/profile"
    case ChangePassword => "/change-password"
  }

  /** The options object of each `authApi` member; `token` is the access
      token the authorised members are called with. */
  function InitOf(e: Endpoint, token: string): RequestInit {
    match e
    case Login => RequestInit(POST, None, true)
    case Register => RequestInit(POST, None, true)
    case RefreshToken => RequestInit(POST, None, true)
    case Logout => RequestInit(POST, Some(BearerHeaders(token)), false)
    case GetProfile => RequestInit(GET, Some(BearerHeaders(token)), false)
    case UpdateProfile => RequestInit(PUT, Some(BearerHeaders(token)), true)
    case ChangePassword => RequestInit(POST, Some(BearerHeaders(token)), true)
  }

  /** The operations that act for a signed-in user. */
  predicate IsAuthorised(e: Endpoint) {
    e == Logout || e == GetProfile || e == UpdateProfile || e == ChangePassword
  }

  /** `{ 'Content-Type': 'application/json', ...options.headers }`: the
      header object `authRequest` builds first. */
  function MergedHeaders(init: RequestInit): Headers {
    JsonContentType + (if init.headers.Some? then init.headers.value else map[])
  }

  /** The headers `fetch` actually receives: the `...options` spread that
      follows replaces the merged object whenever the options carry their
      own `headers`. */
  function SentHeaders(init: RequestInit): Headers {
    var merged := MergedHeaders(init);
    if init.headers.Some? then init.headers.value else merged
  }

  /** The request `authApi` sends for operation `e`, given the auth base
      URL (derived from the API configuration, outside this model): the
      authorised operations send only the bearer header, the others only
      the JSON content type; only a profile read is a GET and only a
      profile update a PUT; logout and the profile read carry no body. */
  function RequestFor(base: string, e: Endpoint, token: string): (r: Request)
    ensures r.url == base + PathOf(e)
    ensures r.headers == if IsAuthorised(e) then BearerHeaders(token) else JsonContentType
    ensures r.verb == (if e == GetProfile then GET else if e == UpdateProfile then PUT else POST)
    ensures r.hasBody <==> e != Logout && e != GetProfile
  {
    var init := InitOf(e, token);
    Request(base + PathOf(e), init.verb, SentHeaders(init), init.hasBody)
  }

  /** The endpoint table: method, path, body and headers of every
      operation as sent. */
  lemma EndpointTable(base: string, token: string)
    ensures RequestFor(base, Login, token) == Request(base + "/login", POST, JsonContentType, true)
    ensures RequestFor(base, Register, token) == Request(base + "/register", POST, JsonContentType, true)
    ensures RequestFor(base, RefreshToken, token) == Request(base + "/refresh-token", POST, JsonContentType, true)
    ensures RequestFor(base, Logout, token) == Request(base + "/logout", POST, BearerHeaders(token), false)
    ensures RequestFor(base, GetProfile, token) == Request(base + "/profile", GET, BearerHeaders(token), false)
    ensures RequestFor(base, UpdateProfile, token) == Request(base + "/profile", PUT, BearerHeaders(token), true)
    ensures RequestFor(base, ChangePassword, token) == Request(base + "/change-password", POST, BearerHeaders(token), true)
  {
  }

  /** No two operations share a method and a path. */
  lemma RoutesDistinct(e1: Endpoint, e2: Endpoint, token: string)
    requires InitOf(e1, token).verb == InitOf(e2, token).verb && PathOf(e1) == PathOf(e2)
    ensures e1 == e2
  {
  }

  /** A bearer token is sent by exactly the four authorised operations,
      and they send nothing else; the other three send only the JSON
      content type. */
  lemma BearerExactlyWhenAuthorised(e: Endpoint, token: string)
    ensures var h := SentHeaders(InitOf(e, token));
      && (AuthorizationHeader in h <==> IsAuthorised(e))
      && (ContentTypeHeader in h <==> !IsAuthorised(e))
      && (IsAuthorised(e) ==> h == map[AuthorizationHeader := "Bearer " + token])
      && (!IsAuthorised(e) ==> h == map[ContentTypeHeader := "application/json"])
  {
    assert ContentTypeHeader != AuthorizationHeader;
  }

  /** As written, a profile update and a password change send a JSON body
      without the JSON content type. */
  lemma JsonBodyWithoutContentType(token: string)
    ensures forall e :: e == UpdateProfile || e == ChangePassword ==>
      InitOf(e, token).hasBody && ContentTypeHeader !in SentHeaders(InitOf(e, token))
  {
    assert ContentTypeHeader != AuthorizationHeader;
  }

  /** The merged object the code builds, had it been sent, carries the JSON
      content type on every operation and the bearer token on the
      authorised ones. */
  lemma MergedHeadersComplete(e: Endpoint, token: string)
    ensures var h := MergedHeaders(InitOf(e, token));
      && ContentTypeHeader in h && h[ContentTypeHeader] == "application/json"
      && (AuthorizationHeader in h <==> IsAuthorised(e))
      && (IsAuthorised(e) ==> h[AuthorizationHeader] == "Bearer " + token)
  {
    assert ContentTypeHeader != AuthorizationHeader;
  }

  // ---------------------------------------------------------------------
  // Responses and failures

  /** A parsed response body: the payload returned on success, and the
      `error` and `message` properties read on failure. */
  datatype ResponseBody<+B> = ResponseBody(data: B, error: Option<string>, message: Option<string>)

  /** What `fetch` and `response.json()` produce: a status with a parsed
      body, or a thrown value (network failure, unreadable body). */
  datatype Exchange<+B> = Received(status: int, body: ResponseBody<B>) | Failed(exc: Thrown)

  /** `response.ok` */
  predicate IsOk(status: int) {
    200 <= status <= 299
  }

  const StatusPrefix: string := "Request failed with status "
  const NetworkFailureMessage: string := "Network request failed"

  /** `Request failed with status ${status}` */
  function StatusMessage(status: int): string {
    StatusPrefix + IntText(status)
  }

  /** The status-based message names the status: the text after the
      prefix reads back as that status. */
  lemma StatusMessageNamesStatus(status: int)
    ensures StatusPrefix <= StatusMessage(status)
    ensures ParseInt(StatusMessage(status)[|StatusPrefix|..]) == Some(Parsed(status, ""))
  {
    var m := StatusMessage(status);
    assert m[|StatusPrefix|..] == IntText(status) + "";
    ParseIntText(status, "");
  }

  /** `data.error || data.message || StatusMessage(status)`: the message of
      the `Error` thrown for a non-ok response. It is never empty. */
  function FailureMessage<B>(body: ResponseBody<B>, status: int): (msg: string)
    ensures msg != ""
    ensures Truthy(body.error) ==> msg == body.error.value
    ensures !Truthy(body.error) && Truthy(body.message) ==> msg == body.message.value
    ensures !Truthy(body.error) && !Truthy(body.message) ==> msg == StatusMessage(status)
  {
    if Truthy(body.error) then body.error.value
    else if Truthy(body.message) then body.message.value
    else StatusMessage(status)
  }

  /** `authRequest`: an ok response yields its body unchanged; every
      failure surfaces as an `Error`: the body's message for a non-ok
      response, a thrown `Error` as it is, anything else thrown as
      "Network request failed". */
  function AuthRequest<B>(x: Exchange<B>): (r: Completion<B>)
    ensures r.Normal? <==> x.Received? && IsOk(x.status)
    ensures r.Normal? ==> r.value == x.body.data
    ensures r.Threw? ==> r.exc.Error?
    ensures r.Threw? && r.exc.message == "" ==> x == Failed(Error(""))
    ensures x.Received? && !IsOk(x.status) ==> r == Threw(Error(FailureMessage(x.body, x.status)))
    ensures x.Failed? && x.exc.Error? ==> r == Threw(x.exc)
    ensures x == Failed(NonError) ==> r == Threw(Error(NetworkFailureMessage))
  {
    match x
    case Received(status, body) =>
      if !IsOk(status) then Threw(Error(FailureMessage(body, status))) else Normal(body.data)
    case Failed(exc) =>
      if exc.Error? then Threw(exc) else Threw(Error(NetworkFailureMessage))
  }

  /** Success payload of `/login`. */
  datatype LoginResponse = LoginResponse(message: string, accessToken: string, refreshToken: string, user: AuthUser)

  /** Success payload of `/refresh-token`. */
  datatype RefreshResponse = RefreshResponse(accessToken: string)
}

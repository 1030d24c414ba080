/** The session client of utils/api.js: the three-cookie token store, login,
    logout, token verification and refresh, and `authenticatedRequest`, which
    retries a request once after refreshing on HTTP 401 (section 15.5.2 of
    RFC 9110) and sends the token as a Bearer credential (section 2.1 of
    RFC 6750).

    The HTTP transport is an oracle: given how many requests were sent before
    and the request itself, it says what came back.  Each operation is first
    stated as a function over a `Browser` value (cookies, location, requests
    sent), then implemented by a method of `SessionClient` that changes its
    fields step by step, as the source does, and is proved equal to it. */
module Session {
  import opened Js
  import Lists

  const RefreshKey := "memis-r"
  const AccessKey := "memis-a"
  const UserKey := "memis-u"

  const LoginPath := "/login"

  /** What the server did with one request. */
  datatype Reply =
    | Ok(status: int, data: Value)          // 2xx: axios resolves
    | Status(code: int, data: Value)        // any other status: axios rejects with a response
    | NoResponse                            // network failure: axios rejects without a response

  /** A request as it leaves the browser. */
  datatype Exchange =
    | LoginPost(email: string, password: string)
    | VerifyPost(token: Value)
    | RefreshPost(refresh: string)
    | ApiRequest(verb: string, endpoint: string, body: Option<Value>, authorization: string)

  /** The server: the reply to the request sent after `n` earlier ones. */
  type Transport = (nat, Exchange) -> Reply

  datatype Browser = Browser(cookies: map<string, string>, location: string, sent: seq<Exchange>)

  /** `{ success, message }` of verifyAccessToken and checkUserSession (`message` may be undefined). */
  datatype Outcome = Outcome(success: bool, message: Value)

  datatype RefreshResult = Refreshed(accessToken: Value) | RefreshFailed(message: Value)

  datatype LoginResult = LoggedIn(data: Value) | LoginFailed(message: Value)

  /** Why `authenticatedRequest` threw. */
  datatype RequestError =
    | HttpError(code: int, data: Value)   // the axios error, rethrown unchanged
    | NetworkError                        // the axios error without a response, rethrown unchanged
    | AuthenticationFailed                // 'Authentication failed. Please log in again.'

  datatype RequestResult =
    | Resolved(status: int, data: Value)
    | ResolvedUndefined                   // a verb other than get/post/put/delete
    | Rejected(error: RequestError)

  // ---------------------------------------------------------------------------
  // Helpers

  /** `Cookies.get(key)`: the stored text, or undefined. */
  function CookieValue(cookies: map<string, string>, key: string): (v: Value)
    ensures key in cookies ==> v == Str(cookies[key])
    ensures key !in cookies ==> v == Undefined
  {
    if key in cookies then Str(cookies[key]) else Undefined
  }

  /** `error.response?.data`. */
  function ResponseData(reply: Reply): Value {
    match reply
    case Ok(_, d) => d
    case Status(_, d) => d
    case NoResponse => Undefined
  }

  /** `error.response?.data?.detail || fallback` for a rejected request. */
  function DetailOr(reply: Reply, fallback: string): (m: Value)
    ensures Truthy(Get(ResponseData(reply), "detail")) ==> m == Get(ResponseData(reply), "detail")
    ensures !Truthy(Get(ResponseData(reply), "detail")) ==> m == Str(fallback)
  {
    Or(Get(ResponseData(reply), "detail"), Str(fallback))
  }

  /** The header `getAuthenticatedApi` builds from the current `memis-a` cookie
      (the text "undefined" when there is none). */
  function Authorization(cookies: map<string, string>): (h: string)
    ensures AccessKey in cookies ==> h == "Bearer " + cookies[AccessKey]
    ensures AccessKey !in cookies ==> h == "Bearer undefined"
  {
    "Bearer " + ToText(CookieValue(cookies, AccessKey))
  }

  predicate IsVerb(verb: string) {
    verb == "get" || verb == "post" || verb == "put" || verb == "delete"
  }

  /** A response body that cannot be destructured (`const { access } = null` throws). */
  predicate Undestructurable(data: Value) {
    data.Null? || data.Undefined?
  }

  // ---------------------------------------------------------------------------
  // The operations, as functions of the browser state

  function Send(b: Browser, t: Transport, e: Exchange): (Reply, Browser) {
    (t(|b.sent|, e), b.(sent := b.sent + [e]))
  }

  function Verify(b: Browser, t: Transport, token: Value): (Outcome, Browser) {
    var (reply, b1) := Send(b, t, VerifyPost(token));
    if reply.Ok? then (Outcome(true, Undefined), b1)
    else (Outcome(false, DetailOr(reply, "Token verification failed.")), b1)
  }

  const RefreshFallback := "Failed to refresh access token. Please log in again."

  function Refresh(b: Browser, t: Transport): (RefreshResult, Browser) {
    var token := CookieValue(b.cookies, RefreshKey);
    if !Truthy(token) then (RefreshFailed(Str("No refresh token found")), b)
    else
      var (reply, b1) := Send(b, t, RefreshPost(token.s));
      if reply.Ok? && !Undestructurable(reply.data) then
        var access := Get(reply.data, "access");
        (Refreshed(access), b1.(cookies := b1.cookies[AccessKey := ToText(access)]))
      else if reply.Ok? then (RefreshFailed(Str(RefreshFallback)), b1)
      else (RefreshFailed(DetailOr(reply, RefreshFallback)), b1)
  }

  const SessionExpired := "Session expired. Please log in again."

  function CheckSession(b: Browser, t: Transport): (Outcome, Browser) {
    var access := CookieValue(b.cookies, AccessKey);
    var (first, b1) := if Truthy(access) then Verify(b, t, access) else (Outcome(false, Undefined), b);
    if Truthy(access) && first.success then (Outcome(true, Str("User is authenticated")), b1)
    else if Truthy(CookieValue(b1.cookies, RefreshKey)) then
      var (refreshed, b2) := Refresh(b1, t);
      if refreshed.Refreshed? then Verify(b2, t, refreshed.accessToken)
      else (Outcome(false, Str(SessionExpired)), b2)
    else (Outcome(false, Str(SessionExpired)), b1)
  }

  const LoginFallback := "An error occurred. Please try again."

  /** loginUser; `stringify` stands for `JSON.stringify` of the user record. */
  function Login(b: Browser, t: Transport, email: string, password: string, rememberMe: bool,
                 stringify: Value -> string): (LoginResult, Browser)
  {
    var (reply, b1) := Send(b, t, LoginPost(email, password));
    if reply.Ok? && !Undestructurable(reply.data) then
      var data := reply.data;
      var cookies := if rememberMe then
        b1.cookies[RefreshKey := ToText(Get(data, "refresh"))]
                  [AccessKey := ToText(Get(data, "access"))]
                  [UserKey := stringify(Get(data, "user"))]
      else b1.cookies;
      (LoggedIn(data), b1.(cookies := cookies))
    else if reply.Ok? then (LoginFailed(Str(LoginFallback)), b1)
    else (LoginFailed(DetailOr(reply, LoginFallback)), b1)
  }

  function Logout(b: Browser): Browser {
    b.(cookies := b.cookies - {RefreshKey, AccessKey, UserKey}, location := LoginPath)
  }

  /** How one attempt's reply settles the request when it is not retried. */
  function Settle(reply: Reply): RequestResult {
    match reply
    case Ok(s, d) => Resolved(s, d)
    case Status(c, d) => Rejected(HttpError(c, d))
    case NoResponse => Rejected(NetworkError)
  }

  function RequestBody(verb: string, data: Value): Option<Value> {
    if verb == "post" || verb == "put" then Some(data) else None
  }

  function Request(b: Browser, t: Transport, verb: string, endpoint: string, data: Value)
    : (RequestResult, Browser)
  {
    if !IsVerb(verb) then (ResolvedUndefined, b)
    else
      var body := RequestBody(verb, data);
      var (first, b1) := Send(b, t, ApiRequest(verb, endpoint, body, Authorization(b.cookies)));
      if !(first.Status? && first.code == 401) then (Settle(first), b1)
      else
        var (refreshed, b2) := Refresh(b1, t);
        if refreshed.RefreshFailed? then (Rejected(AuthenticationFailed), b2.(location := LoginPath))
        else
          var (second, b3) := Send(b2, t, ApiRequest(verb, endpoint, body, Authorization(b2.cookies)));
          (Settle(second), b3)
  }

  // ---------------------------------------------------------------------------
  // The client, as the source runs it

  class SessionClient {
    var cookies: map<string, string>
    var location: string
    var sent: seq<Exchange>
    const transport: Transport

    function State(): Browser
      reads this
    {
      Browser(cookies, location, sent)
    }

    constructor (transport: Transport, cookies: map<string, string>, location: string)
      ensures State() == Browser(cookies, location, []) && this.transport == transport
    {
      this.transport := transport;
      this.cookies := cookies;
      this.location := location;
      this.sent := [];
    }

    /** One axios call. */
    method Post(e: Exchange) returns (reply: Reply)
      modifies this
      ensures (reply, State()) == Send(old(State()), transport, e)
    {
      reply := transport(|sent|, e);
      sent := sent + [e];
    }

    method VerifyAccessToken(token: Value) returns (r: Outcome)
      modifies this
      ensures (r, State()) == Verify(old(State()), transport, token)
    {
      var reply := Post(VerifyPost(token));
      if reply.Ok? {
        r := Outcome(true, Undefined);
      } else {
        r := Outcome(false, DetailOr(reply, "Token verification failed."));
      }
    }

    method RefreshAccessToken() returns (r: RefreshResult)
      modifies this
      ensures (r, State()) == Refresh(old(State()), transport)
    {
      var token := CookieValue(cookies, RefreshKey);
      if !Truthy(token) {
        return RefreshFailed(Str("No refresh token found"));
      }
      var reply := Post(RefreshPost(token.s));
      if reply.Ok? && !Undestructurable(reply.data) {
        var access := Get(reply.data, "access");
        cookies := cookies[AccessKey := ToText(access)];
        r := Refreshed(access);
      } else if reply.Ok? {
        r := RefreshFailed(Str(RefreshFallback));
      } else {
        r := RefreshFailed(DetailOr(reply, RefreshFallback));
      }
    }

    method CheckUserSession() returns (r: Outcome)
      modifies this
      ensures (r, State()) == CheckSession(old(State()), transport)
    {
      var access := CookieValue(cookies, AccessKey);
      if Truthy(access) {
        var verified := VerifyAccessToken(access);
        if verified.success {
          return Outcome(true, Str("User is authenticated"));
        }
      }
      var refreshToken := CookieValue(cookies, RefreshKey);
      if Truthy(refreshToken) {
        var refreshed := RefreshAccessToken();
        if refreshed.Refreshed? {
          r := VerifyAccessToken(refreshed.accessToken);
          return;
        }
      }
      r := Outcome(false, Str(SessionExpired));
    }

    method LoginUser(email: string, password: string, rememberMe: bool, stringify: Value -> string)
      returns (r: LoginResult)
      modifies this
      ensures (r, State()) == Login(old(State()), transport, email, password, rememberMe, stringify)
    {
      var reply := Post(LoginPost(email, password));
      if reply.Ok? && !Undestructurable(reply.data) {
        var data := reply.data;
        if rememberMe {
          cookies := cookies[RefreshKey := ToText(Get(data, "refresh"))];
          cookies := cookies[AccessKey := ToText(Get(data, "access"))];
          cookies := cookies[UserKey := stringify(Get(data, "user"))];
        }
        r := LoggedIn(data);
      } else if reply.Ok? {
        r := LoginFailed(Str(LoginFallback));
      } else {
        r := LoginFailed(DetailOr(reply, LoginFallback));
      }
    }

    method LogoutUser()
      modifies this
      ensures State() == Logout(old(State()))
    {
      cookies := cookies - {RefreshKey};
      cookies := cookies - {AccessKey};
      cookies := cookies - {UserKey};
      location := LoginPath;
      assert cookies == old(cookies) - {RefreshKey, AccessKey, UserKey};
    }

    method AuthenticatedRequest(verb: string, endpoint: string, data: Value) returns (r: RequestResult)
      modifies this
      ensures (r, State()) == Request(old(State()), transport, verb, endpoint, data)
    {
      if !IsVerb(verb) {
        return ResolvedUndefined;
      }
      var body := RequestBody(verb, data);
      var authorization := Authorization(cookies);
      var first := Post(ApiRequest(verb, endpoint, body, authorization));
      if !(first.Status? && first.code == 401) {
        return Settle(first);
      }
      var refreshed := RefreshAccessToken();
      if refreshed.RefreshFailed? {
        location := LoginPath;
        return Rejected(AuthenticationFailed);
      }
      authorization := Authorization(cookies);
      var second := Post(ApiRequest(verb, endpoint, body, authorization));
      r := Settle(second);
    }
  }

  // ---------------------------------------------------------------------------
  // Properties

  predicate IsApiRequest(e: Exchange) {
    e.ApiRequest?
  }

  predicate IsRefreshPost(e: Exchange) {
    e.RefreshPost?
  }

  /** The requests an operation added to the log. */
  function Added(before: Browser, after: Browser): seq<Exchange>
    requires |before.sent| <= |after.sent|
  {
    after.sent[|before.sent|..]
  }

  /** Refreshing without a refresh token changes nothing and sends nothing; a
      refresh that fails leaves every cookie as it was; one that succeeds
      overwrites `memis-a` and nothing else. */
  lemma RefreshCookies(b: Browser, t: Transport)
    ensures var (r, b1) := Refresh(b, t);
      && (!Truthy(CookieValue(b.cookies, RefreshKey)) ==> r == RefreshFailed(Str("No refresh token found")) && b1 == b)
      && (r.RefreshFailed? ==> b1.cookies == b.cookies && b1.location == b.location)
      && (r.Refreshed? ==> b1.cookies == b.cookies[AccessKey := ToText(r.accessToken)])
      && (r.Refreshed? ==> forall k :: k != AccessKey ==> (k in b1.cookies <==> k in b.cookies))
      && b1.location == b.location
      && |b1.sent| <= |b.sent| + 1 && b1.sent[..|b.sent|] == b.sent
      && (Truthy(CookieValue(b.cookies, RefreshKey)) ==>
            b1.sent == b.sent + [RefreshPost(b.cookies[RefreshKey])])
  {
  }

  /** A first attempt that fails without a 401 (or without any response) is
      rethrown unchanged: no refresh, no second attempt, no state change. */
  lemma NonAuthFailureIsRethrown(b: Browser, t: Transport, verb: string, endpoint: string, data: Value)
    requires IsVerb(verb)
    requires var first := t(|b.sent|, ApiRequest(verb, endpoint, RequestBody(verb, data), Authorization(b.cookies)));
      first.NoResponse? || (first.Status? && first.code != 401)
    ensures var first := t(|b.sent|, ApiRequest(verb, endpoint, RequestBody(verb, data), Authorization(b.cookies)));
      var (r, b1) := Request(b, t, verb, endpoint, data);
      && r == Rejected(if first.NoResponse? then NetworkError else HttpError(first.code, first.data))
      && b1 == b.(sent := b.sent + [ApiRequest(verb, endpoint, RequestBody(verb, data), Authorization(b.cookies))])
  {
  }

  /** The log of one `authenticatedRequest`: nothing (unknown verb), or a first
      attempt, optionally followed by a refresh request and, only after a 401
      whose refresh succeeded, one retry. */
  predicate AttemptLog(added: seq<Exchange>, firstReply: Reply, refreshOk: bool) {
    || added == []
    || (|added| == 1 && added[0].ApiRequest?)
    || (|added| == 2 && added[0].ApiRequest? && added[1].RefreshPost?)
    || (|added| == 3 && added[0].ApiRequest? && added[1].RefreshPost? && added[2].ApiRequest?
        && firstReply.Status? && firstReply.code == 401 && refreshOk)
  }

  /** At most two attempts and at most one refresh; a second attempt happens
      only after a 401 whose refresh succeeded. */
  lemma AtMostTwoAttempts(b: Browser, t: Transport, verb: string, endpoint: string, data: Value)
    ensures var (r, b1) := Request(b, t, verb, endpoint, data);
      var e := ApiRequest(verb, endpoint, RequestBody(verb, data), Authorization(b.cookies));
      && |b.sent| <= |b1.sent| && b1.sent[..|b.sent|] == b.sent
      && AttemptLog(Added(b, b1), t(|b.sent|, e), Refresh(b.(sent := b.sent + [e]), t).0.Refreshed?)
      && Lists.Count(Added(b, b1), IsApiRequest) <= 2
      && Lists.Count(Added(b, b1), IsRefreshPost) <= 1
  {
    var e := ApiRequest(verb, endpoint, RequestBody(verb, data), Authorization(b.cookies));
    var b1 := Request(b, t, verb, endpoint, data).1;
    RequestLog(b, t, verb, endpoint, data);
    AttemptLogCounts(Added(b, b1), t(|b.sent|, e), Refresh(b.(sent := b.sent + [e]), t).0.Refreshed?);
  }

  /** Helper: the requests one call adds to the log. */
  lemma RequestLog(b: Browser, t: Transport, verb: string, endpoint: string, data: Value)
    ensures var b1 := Request(b, t, verb, endpoint, data).1;
      var e := ApiRequest(verb, endpoint, RequestBody(verb, data), Authorization(b.cookies));
      && |b.sent| <= |b1.sent| && b1.sent[..|b.sent|] == b.sent
      && AttemptLog(b1.sent[|b.sent|..], t(|b.sent|, e), Refresh(b.(sent := b.sent + [e]), t).0.Refreshed?)
  {
    var b1 := Request(b, t, verb, endpoint, data).1;
    if IsVerb(verb) {
      var e := ApiRequest(verb, endpoint, RequestBody(verb, data), Authorization(b.cookies));
      var first := t(|b.sent|, e);
      var bs := b.(sent := b.sent + [e]);
      if first.Status? && first.code == 401 {
        var (refreshed, b2) := Refresh(bs, t);
        RefreshCookies(bs, t);
        if refreshed.RefreshFailed? {
          assert b1.sent == b2.sent;
          assert b1.sent[|b.sent|..] == b2.sent[|b.sent|..];
        } else {
          var e2 := ApiRequest(verb, endpoint, RequestBody(verb, data), Authorization(b2.cookies));
          assert b1.sent == b.sent + [e, RefreshPost(b.cookies[RefreshKey]), e2];
          assert b1.sent[|b.sent|..] == [e, RefreshPost(b.cookies[RefreshKey]), e2];
        }
      } else {
        assert b1.sent == b.sent + [e];
        assert b1.sent[|b.sent|..] == [e];
      }
    } else {
      assert b1.sent[|b.sent|..] == [];
    }
  }

  /** Helper: the request counts of such a log. */
  lemma AttemptLogCounts(added: seq<Exchange>, firstReply: Reply, refreshOk: bool)
    requires AttemptLog(added, firstReply, refreshOk)
    ensures Lists.Count(added, IsApiRequest) <= 2 && Lists.Count(added, IsRefreshPost) <= 1
  {
    if |added| >= 1 {
      var rest := added[1..];
      if |added| >= 2 {
        var rest2 := rest[1..];
        if |added| == 3 {
          assert rest2[1..] == [];
          assert Lists.Count(rest2, IsApiRequest) == 1 && Lists.Count(rest2, IsRefreshPost) == 0;
          assert Lists.Count(rest, IsApiRequest) == 1 && Lists.Count(rest, IsRefreshPost) == 1;
        } else {
          assert rest2 == [];
        }
      } else {
        assert rest == [];
      }
    }
  }

  /** A 401 whose refresh fails sends the browser to /login and throws
      'Authentication failed', without clearing any cookie. */
  lemma RefreshFailureRedirects(b: Browser, t: Transport, verb: string, endpoint: string, data: Value)
    requires IsVerb(verb)
    requires var e := ApiRequest(verb, endpoint, RequestBody(verb, data), Authorization(b.cookies));
      var first := t(|b.sent|, e);
      first.Status? && first.code == 401 && Refresh(b.(sent := b.sent + [e]), t).0.RefreshFailed?
    ensures var (r, b1) := Request(b, t, verb, endpoint, data);
      r == Rejected(AuthenticationFailed) && b1.location == LoginPath && b1.cookies == b.cookies
  {
    var e := ApiRequest(verb, endpoint, RequestBody(verb, data), Authorization(b.cookies));
    RefreshCookies(b.(sent := b.sent + [e]), t);
  }

  /** After a successful refresh the retry carries the new access token, and its
      reply settles the request whatever it is (a second 401 is not refreshed again). */
  lemma RetryUsesRefreshedToken(b: Browser, t: Transport, verb: string, endpoint: string, data: Value)
    requires IsVerb(verb)
    requires var e := ApiRequest(verb, endpoint, RequestBody(verb, data), Authorization(b.cookies));
      var first := t(|b.sent|, e);
      first.Status? && first.code == 401 && Refresh(b.(sent := b.sent + [e]), t).0.Refreshed?
    ensures var e := ApiRequest(verb, endpoint, RequestBody(verb, data), Authorization(b.cookies));
      var (refreshed, b2) := Refresh(b.(sent := b.sent + [e]), t);
      var (r, b1) := Request(b, t, verb, endpoint, data);
      && |b1.sent| == |b2.sent| + 1
      && b1.sent[|b2.sent|].authorization == "Bearer " + ToText(refreshed.accessToken)
      && r == Settle(t(|b2.sent|, b1.sent[|b2.sent|]))
  {
    var e := ApiRequest(verb, endpoint, RequestBody(verb, data), Authorization(b.cookies));
    RefreshCookies(b.(sent := b.sent + [e]), t);
  }

  /** A verb other than get/post/put/delete sends nothing and resolves to undefined. */
  lemma UnknownVerbSendsNothing(b: Browser, t: Transport, verb: string, endpoint: string, data: Value)
    requires !IsVerb(verb)
    ensures Request(b, t, verb, endpoint, data) == (ResolvedUndefined, b)
  {
  }

  /** checkUserSession succeeds exactly when the stored access token verifies, or
      else a stored refresh token yields a new access token that verifies; when
      the stored token verifies, the refresh path is never entered. */
  lemma CheckSessionSucceedsIff(b: Browser, t: Transport)
    ensures var access := CookieValue(b.cookies, AccessKey);
      var accessOk := Truthy(access) && t(|b.sent|, VerifyPost(access)).Ok?;
      var b1 := if Truthy(access) then b.(sent := b.sent + [VerifyPost(access)]) else b;
      var (refreshed, b2) := Refresh(b1, t);
      var refreshOk := Truthy(CookieValue(b.cookies, RefreshKey)) && refreshed.Refreshed?
        && t(|b2.sent|, VerifyPost(refreshed.accessToken)).Ok?;
      var (r, bEnd) := CheckSession(b, t);
      && (r.success <==> accessOk || refreshOk)
      && (accessOk ==> bEnd == b1 && r.message == Str("User is authenticated"))
      && (!accessOk && !Truthy(CookieValue(b.cookies, RefreshKey)) ==>
            bEnd == b1 && r == Outcome(false, Str(SessionExpired)))
      && bEnd.location == b.location
  {
  }

  /** loginUser writes the three cookies only when rememberMe is set, and touches
      no other cookie. */
  lemma LoginCookieWrites(b: Browser, t: Transport, email: string, password: string,
                          rememberMe: bool, stringify: Value -> string)
    ensures var (r, b1) := Login(b, t, email, password, rememberMe, stringify);
      && (!rememberMe || r.LoginFailed? ==> b1.cookies == b.cookies)
      && (rememberMe && r.LoggedIn? ==>
            b1.cookies == b.cookies[RefreshKey := ToText(Get(r.data, "refresh"))]
                                   [AccessKey := ToText(Get(r.data, "access"))]
                                   [UserKey := stringify(Get(r.data, "user"))])
      && (forall k :: k != RefreshKey && k != AccessKey && k != UserKey ==>
            (k in b1.cookies <==> k in b.cookies) && (k in b.cookies ==> b1.cookies[k] == b.cookies[k]))
      && b1.sent == b.sent + [LoginPost(email, password)]
  {
  }

  /** logoutUser removes exactly the three session cookies, keeps the others,
      goes to /login, and doing it twice is the same as once. */
  lemma LogoutRemovesExactlySessionCookies(b: Browser)
    ensures forall k :: k in Logout(b).cookies <==>
      k in b.cookies && k != RefreshKey && k != AccessKey && k != UserKey
    ensures forall k :: k in Logout(b).cookies ==> Logout(b).cookies[k] == b.cookies[k]
    ensures Logout(b).location == LoginPath && Logout(b).sent == b.sent
    ensures Logout(Logout(b)) == Logout(b)
  {
  }

  // ---------------------------------------------------------------------------
  // The supplier and equipment wrappers

  /** `{ success, data, error, status }` returned by the create/update/delete wrappers. */
  datatype Mutation = Mutation(success: bool, data: Value, error: Value, status: Value)

  /** The wrappers' catch: `error.response?.data || fallback` and `error.response?.status`;
      a request that resolved to undefined throws on `response.data`. */
  function ToMutation(r: RequestResult, fallback: string): (m: Mutation)
    ensures m.success <==> r.Resolved?
    ensures r.Resolved? ==> m.data == r.data && m.status == Num(r.status)
    ensures r.Rejected? && r.error.HttpError? ==>
      m.error == Or(r.error.data, Str(fallback)) && m.status == Num(r.error.code)
    ensures !m.success && !(r.Rejected? && r.error.HttpError?) ==>
      m.error == Str(fallback) && m.status == Undefined
  {
    match r
    case Resolved(s, d) => Mutation(true, d, Undefined, Num(s))
    case ResolvedUndefined => Mutation(false, Undefined, Str(fallback), Undefined)
    case Rejected(HttpError(c, d)) => Mutation(false, Undefined, Or(d, Str(fallback)), Num(c))
    case Rejected(_) => Mutation(false, Undefined, Str(fallback), Undefined)
  }

  /** A request a screen sends through `authenticatedRequest` directly. */
  datatype Call = Call(verb: string, endpoint: string, data: Value)

  /** The `authenticatedRequest` a wrapper issues, and its fallback message. */
  datatype ApiCall = ApiCall(verb: string, endpoint: string, body: Value, fallback: string)

  function CreateSupplierCall(supplier: Value): ApiCall {
    ApiCall("post", "/suppliers/", supplier, "Failed to create supplier")
  }

  function DeleteSupplierCall(id: Value): ApiCall {
    ApiCall("delete", "/suppliers/" + ToText(id) + "/", Null, "Failed to delete supplier")
  }

  function DeleteEquipmentCall(id: Value): ApiCall {
    ApiCall("delete", "/equipment/" + ToText(id) + "/", Null, "Failed to delete supplier")
  }

  function UpdateSupplierCall(id: Value, supplier: Value): ApiCall {
    ApiCall("put", "/suppliers/" + ToText(id) + "/", supplier, "Failed to update supplier")
  }

  function CreateEquipmentCall(equipment: Value): ApiCall {
    ApiCall("post", "/equipment/", equipment, "Failed to create supplier")
  }

  function UpdateEquipmentCall(id: Value, equipment: Value): ApiCall {
    ApiCall("put", "/suppliers/" + ToText(id) + "/", equipment, "Failed to create supplier")
  }

  /** updateEquipment sends its PUT to the supplier endpoint of the same id, so
      it is the same request as updateSupplier with the same arguments, and not
      the equipment resource deleteEquipment addresses. */
  lemma UpdateEquipmentTargetsSupplier(id: Value, body: Value)
    ensures UpdateEquipmentCall(id, body).endpoint == UpdateSupplierCall(id, body).endpoint
    ensures UpdateEquipmentCall(id, body).verb == UpdateSupplierCall(id, body).verb
    ensures StartsWith(UpdateEquipmentCall(id, body).endpoint, "/suppliers/")
    ensures UpdateEquipmentCall(id, body).endpoint != DeleteEquipmentCall(id).endpoint
  {
    assert UpdateEquipmentCall(id, body).endpoint[1] != DeleteEquipmentCall(id).endpoint[1];
  }

  /** The request updateEquipment evidently means to send: a PUT to the
      equipment resource that deleteEquipment addresses. */
  function IntendedUpdateEquipmentCall(id: Value, equipment: Value): ApiCall {
    ApiCall("put", "/equipment/" + ToText(id) + "/", equipment, "Failed to update equipment")
  }

  /** The intended update addresses the same resource as deleteEquipment, and
      never the supplier that updateSupplier with the same id addresses. */
  lemma IntendedUpdateTargetsEquipment(id: Value, body: Value)
    ensures IntendedUpdateEquipmentCall(id, body).endpoint == DeleteEquipmentCall(id).endpoint
    ensures IntendedUpdateEquipmentCall(id, body).endpoint != UpdateSupplierCall(id, body).endpoint
    ensures IntendedUpdateEquipmentCall(id, body).verb == "put"
    ensures IntendedUpdateEquipmentCall(id, body).body == body
  {
    var e := IntendedUpdateEquipmentCall(id, body).endpoint;
    var s := UpdateSupplierCall(id, body).endpoint;
    assert e[1] == 'e' && s[1] == 's';
  }

  /** Running a wrapper: the request, then the mapping of its outcome. */
  function RunCall(b: Browser, t: Transport, call: ApiCall): (Mutation, Browser) {
    var (r, b1) := Request(b, t, call.verb, call.endpoint, call.body);
    (ToMutation(r, call.fallback), b1)
  }
}

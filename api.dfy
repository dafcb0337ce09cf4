/** The API client (lib/api.ts): the browser's two key-value stores (cookies
    and localStorage), the request interceptor that attaches the bearer token,
    the response interceptor that drops the session on a 401, and
    `authService.logout`. The HTTP transport itself is not modelled. */
module Api {
  import opened Wrappers

  const AuthTokenCookie: string := "auth-token"
  const UserCookie: string := "user"
  const TokenItem: string := "token"
  const UserItem: string := "user"
  const AuthorizationHeader: string := "Authorization"
  const SignInPath: string := "/signin"
  const UnauthorizedStatus: int := 401

  /** The contents of the cookie jar and of localStorage. */
  datatype Stores = Stores(cookies: map<string, string>, local: map<string, string>)

  /** The value stored under `key`, with a missing key read as the empty
      string: both are falsy, which is all the code ever tests. */
  function Lookup(m: map<string, string>, key: string): string
  {
    if key in m then m[key] else ""
  }

  /** `after` is `before` without `keys`, every other entry untouched. */
  predicate RemovedKeys(before: map<string, string>, after: map<string, string>, keys: set<string>)
  {
    && after.Keys == before.Keys - keys
    && forall k :: k in after ==> after[k] == before[k]
  }

  /** The four removals shared by `authService.logout` and `clearAuthData`:
      both cookies and both localStorage items of the session, nothing else. */
  function RemoveSession(s: Stores): (r: Stores)
    ensures RemovedKeys(s.cookies, r.cookies, {AuthTokenCookie, UserCookie})
    ensures RemovedKeys(s.local, r.local, {TokenItem, UserItem})
  {
    Stores(s.cookies - {AuthTokenCookie, UserCookie}, s.local - {TokenItem, UserItem})
  }

  /** What the 401 handler removes: the token cookie and both localStorage
      items. The `user` cookie survives. */
  function RemoveOnUnauthorized(s: Stores): (r: Stores)
    ensures RemovedKeys(s.cookies, r.cookies, {AuthTokenCookie})
    ensures RemovedKeys(s.local, r.local, {TokenItem, UserItem})
    ensures UserCookie in s.cookies ==> UserCookie in r.cookies && r.cookies[UserCookie] == s.cookies[UserCookie]
  {
    Stores(s.cookies - {AuthTokenCookie}, s.local - {TokenItem, UserItem})
  }

  /** `Cookies.get('auth-token') || localStorage.getItem('token')`: the cookie
      when it is non-empty, otherwise the localStorage item. */
  function RequestToken(s: Stores): (t: string)
    ensures t != "" <==> Lookup(s.cookies, AuthTokenCookie) != "" || Lookup(s.local, TokenItem) != ""
    ensures Lookup(s.cookies, AuthTokenCookie) != "" ==> t == s.cookies[AuthTokenCookie]
    ensures Lookup(s.cookies, AuthTokenCookie) == "" ==> t == Lookup(s.local, TokenItem)
  {
    var cookie := Lookup(s.cookies, AuthTokenCookie);
    if cookie != "" then cookie else Lookup(s.local, TokenItem)
  }

  /** The headers after the request interceptor: `Authorization: Bearer <token>`
      when there is a token, the headers as they were otherwise. */
  function Authorized(headers: map<string, string>, s: Stores): (h: map<string, string>)
    ensures RequestToken(s) != "" ==>
      h.Keys == headers.Keys + {AuthorizationHeader} && h[AuthorizationHeader] == "Bearer " + RequestToken(s)
    ensures forall k :: k in headers && k != AuthorizationHeader ==> k in h && h[k] == headers[k]
    ensures RequestToken(s) == "" ==> h == headers
  {
    var token := RequestToken(s);
    if token != "" then headers[AuthorizationHeader := "Bearer " + token] else headers
  }

  /** After a 401 no token is left in either store, so later requests carry no
      bearer header of their own. */
  lemma NoBearerAfterUnauthorized(headers: map<string, string>, s: Stores)
    ensures RequestToken(RemoveOnUnauthorized(s)) == ""
    ensures Authorized(headers, RemoveOnUnauthorized(s)) == headers
  {
  }

  /** The same holds after a logout. */
  lemma NoBearerAfterLogout(headers: map<string, string>, s: Stores)
    ensures RequestToken(RemoveSession(s)) == ""
    ensures Authorized(headers, RemoveSession(s)) == headers
  {
  }

  predicate IsUnauthorized(e: HttpError)
  {
    e.status == Some(UnauthorizedStatus)
  }

  /** An axios request configuration; the interceptor edits its headers in place. */
  class RequestConfig {
    var headers: map<string, string>

    constructor (headers: map<string, string>)
      ensures this.headers == headers
    {
      this.headers := headers;
    }
  }

  /** The browser state the client reads and writes: the cookie jar,
      localStorage, and the last location the code navigated to. */
  class Browser {
    var cookies: map<string, string>
    var local: map<string, string>
    var location: Option<string>

    function Snapshot(): Stores
      reads this
    {
      Stores(cookies, local)
    }

    constructor (cookies: map<string, string>, local: map<string, string>)
      ensures this.cookies == cookies && this.local == local && location == None
    {
      this.cookies := cookies;
      this.local := local;
      location := None;
    }

    /** `Cookies.remove(key)` */
    method RemoveCookie(key: string)
      modifies this
      ensures cookies == old(cookies) - {key}
      ensures local == old(local) && location == old(location)
    {
      cookies := cookies - {key};
    }

    /** `Cookies.set(key, value)` */
    method SetCookie(key: string, value: string)
      modifies this
      ensures cookies == old(cookies)[key := value]
      ensures local == old(local) && location == old(location)
    {
      cookies := cookies[key := value];
    }

    /** `localStorage.removeItem(key)` */
    method RemoveItem(key: string)
      modifies this
      ensures local == old(local) - {key}
      ensures cookies == old(cookies) && location == old(location)
    {
      local := local - {key};
    }

    /** `localStorage.setItem(key, value)` */
    method SetItem(key: string, value: string)
      modifies this
      ensures local == old(local)[key := value]
      ensures cookies == old(cookies) && location == old(location)
    {
      local := local[key := value];
    }

    /** `window.location.href = target` or `router.push(target)`. */
    method Navigate(target: string)
      modifies this
      ensures location == Some(target)
      ensures cookies == old(cookies) && local == old(local)
    {
      location := Some(target);
    }

    /** The request interceptor. */
    method InterceptRequest(config: RequestConfig)
      modifies config
      ensures config.headers == Authorized(old(config.headers), Snapshot())
    {
      var token := Lookup(cookies, AuthTokenCookie);
      if token == "" {
        token := Lookup(local, TokenItem);
      }
      if token != "" {
        config.headers := config.headers[AuthorizationHeader := "Bearer " + token];
      }
    }

    /** The response interceptor's success branch: the response passes through. */
    method InterceptResponse<T>(response: T) returns (r: T)
      ensures r == response
    {
      r := response;
    }

    /** The response interceptor's error branch: on a 401 the session is
      dropped and the browser sent to sign in; every error is re-rejected. */
    method InterceptError(error: HttpError) returns (rejected: HttpError)
      modifies this
      ensures rejected == error
      ensures IsUnauthorized(error) ==>
        Snapshot() == RemoveOnUnauthorized(old(Snapshot())) && location == Some(SignInPath)
      ensures !IsUnauthorized(error) ==> Snapshot() == old(Snapshot()) && location == old(location)
    {
      if error.status.Some? && error.status.value == UnauthorizedStatus {
        RemoveCookie(AuthTokenCookie);
        RemoveItem(TokenItem);
        RemoveItem(UserItem);
        Navigate(SignInPath);
      }
      rejected := error;
    }

    /** `authService.logout`: removes the four session keys and resolves to true. */
    method Logout() returns (ok: bool)
      modifies this
      ensures ok
      ensures Snapshot() == RemoveSession(old(Snapshot())) && location == old(location)
    {
      RemoveCookie(AuthTokenCookie);
      RemoveCookie(UserCookie);
      RemoveItem(TokenItem);
      RemoveItem(UserItem);
      ok := true;
    }
  }
}

/** The session store (contexts/auth-context.tsx): the in-memory `user` and
    `isLoading` of `AuthProvider`, kept beside the cookies and localStorage
    entries of lib/api.ts. Each operation is first given as a transition on an
    `AuthState` value, about which the lemmas speak; the `AuthProvider` class
    then performs it step by step on the browser's stores and is proved to end
    in that state. JSON is passed in as `stringify` and `parse`; the server's
    answer to a login is an input. */
module Auth {
  import opened Wrappers
  import opened Api
  import RouteGuard

  /** `id: string | number` */
  datatype UserId = NumberId(n: int) | TextId(s: string)

  datatype User = User(id: UserId, email: string, nome: string, role: string)

  /** `JSON.parse` either throws or yields a value; the stored text "null"
      yields `null`, which is `Parsed(None)`. */
  datatype ParseResult = ParseError | Parsed(value: Option<User>)

  /** The body of a login response; `token` may be missing. */
  datatype LoginResponse = LoginResponse(token: Option<string>, id: UserId, email: string, nome: string, role: string)

  const HomeRoute: string := "/"

  datatype AuthState = AuthState(stores: Stores, user: Option<User>, isLoading: bool, location: Option<string>)

  /** `isAuthenticated: !!user` */
  predicate IsAuthenticated(st: AuthState)
  {
    st.user.Some?
  }

  /** `JSON.parse` undoes `JSON.stringify` on user records, whose encoding
      is never the empty string (it is an object literal). */
  ghost predicate RoundTrip(stringify: User -> string, parse: string -> ParseResult)
  {
    forall u :: stringify(u) != "" && parse(stringify(u)) == Parsed(Some(u))
  }

  /** None of the four session keys is stored. */
  predicate NoSession(s: Stores)
  {
    && AuthTokenCookie !in s.cookies && UserCookie !in s.cookies
    && TokenItem !in s.local && UserItem !in s.local
  }

  /** `clearAuthData`: the four session keys go, the user is forgotten, and
      every other cookie and item stays. */
  function Cleared(st: AuthState): (r: AuthState)
    ensures NoSession(r.stores) && r.user == None
    ensures RemovedKeys(st.stores.cookies, r.stores.cookies, {AuthTokenCookie, UserCookie})
    ensures RemovedKeys(st.stores.local, r.stores.local, {TokenItem, UserItem})
    ensures r.isLoading == st.isLoading && r.location == st.location
  {
    st.(stores := RemoveSession(st.stores), user := None)
  }

  /** The user record `checkAuth` reads back: present only with a non-empty
      token cookie, a non-empty localStorage `user` item, and a parse that
      does not throw. The `user` cookie is never consulted. */
  function StoredUser(s: Stores, parse: string -> ParseResult): ParseResult
  {
    var token := Lookup(s.cookies, AuthTokenCookie);
    var data := Lookup(s.local, UserItem);
    if token == "" || data == "" then ParseError else parse(data)
  }

  /** `checkAuth`, run once when the provider mounts. */
  function Rehydrated(st: AuthState, parse: string -> ParseResult): (r: AuthState)
    ensures !r.isLoading && r.location == st.location
    ensures StoredUser(st.stores, parse).Parsed? ==>
      r.stores == st.stores && r.user == StoredUser(st.stores, parse).value
    ensures StoredUser(st.stores, parse).ParseError? ==>
      NoSession(r.stores) && r.user == None && r == Cleared(st).(isLoading := false)
  {
    var next :=
      if Lookup(st.stores.cookies, AuthTokenCookie) == "" then Cleared(st)
      else
        var data := Lookup(st.stores.local, UserItem);
        if data == "" then Cleared(st)
        else match parse(data)
          case ParseError => Cleared(st)
          case Parsed(u) => st.(user := u);
    next.(isLoading := false)
  }

  /** The record `login` builds from the response. */
  function UserOf(resp: LoginResponse): User
  {
    User(resp.id, resp.email, resp.nome, resp.role)
  }

  /** The token of a response when it is truthy, "" otherwise. */
  function TokenOf(resp: LoginResponse): string
  {
    resp.token.GetOr("")
  }

  /** `login`: clear, ask the server (its answer is `reply`), and on a token
      store it in both stores, store the user record in both stores, set the
      user and go home. The request goes through the API client, so a 401
      answer first meets its error handler, which removes the token cookie and
      both items (already gone here) and sends the browser to sign in; the
      error is then rethrown. `isLoading` is false whatever happens. */
  function LoggedIn(st: AuthState, reply: Reply<LoginResponse>, stringify: User -> string): (r: AuthState)
    ensures !r.isLoading
  {
    var cleared := Cleared(st);
    match reply
    case Failed(err) =>
      if IsUnauthorized(err) then
        cleared.(stores := RemoveOnUnauthorized(cleared.stores), isLoading := false, location := Some(SignInPath))
      else cleared.(isLoading := false)
    case Ok(resp) =>
      var token := TokenOf(resp);
      if token == "" then cleared.(isLoading := false)
      else
        var u := UserOf(resp);
        var record := stringify(u);
        AuthState(
          Stores(cleared.stores.cookies[AuthTokenCookie := token][UserCookie := record],
                 cleared.stores.local[TokenItem := token][UserItem := record]),
          Some(u), false, Some(HomeRoute))
  }

  /** `logout`: the service removes the four keys, the user is forgotten, and
      the browser goes to the sign-in page. */
  function LoggedOut(st: AuthState): (r: AuthState)
    ensures NoSession(r.stores) && r.user == None && !IsAuthenticated(r)
    ensures r.location == Some(SignInPath) && r.isLoading == st.isLoading
  {
    st.(stores := RemoveSession(st.stores), user := None, location := Some(SignInPath))
  }

  /** After a login whose response has a token, the cookie and localStorage
      copies agree: both hold the token and both hold the same encoding of the
      user record. Keys other than the four are those left by clearing. */
  lemma LoginPersistsSession(st: AuthState, resp: LoginResponse, stringify: User -> string)
    requires TokenOf(resp) != ""
    ensures var r := LoggedIn(st, Ok(resp), stringify);
      && AuthTokenCookie in r.stores.cookies && TokenItem in r.stores.local
      && r.stores.cookies[AuthTokenCookie] == r.stores.local[TokenItem] == resp.token.value
      && UserCookie in r.stores.cookies && UserItem in r.stores.local
      && r.stores.cookies[UserCookie] == r.stores.local[UserItem] == stringify(UserOf(resp))
      && r.user == Some(User(resp.id, resp.email, resp.nome, resp.role))
      && IsAuthenticated(r) && r.location == Some(HomeRoute)
      && (forall k :: k != AuthTokenCookie && k != UserCookie ==>
           (k in r.stores.cookies <==> k in st.stores.cookies) &&
           (k in r.stores.cookies ==> r.stores.cookies[k] == st.stores.cookies[k]))
      && (forall k :: k != TokenItem && k != UserItem ==>
           (k in r.stores.local <==> k in st.stores.local) &&
           (k in r.stores.local ==> r.stores.local[k] == st.stores.local[k]))
  {
  }

  /** A response without a token leaves no session behind and does not navigate. */
  lemma LoginWithoutToken(st: AuthState, resp: LoginResponse, stringify: User -> string)
    requires TokenOf(resp) == ""
    ensures var r := LoggedIn(st, Ok(resp), stringify);
      NoSession(r.stores) && r.user == None && !r.isLoading && r.location == st.location
  {
  }

  /** A failed login (the call rethrows) leaves the cleared stores and no
      user; a 401 also sends the browser to sign in, any other failure stays
      where it was. */
  lemma FailedLogin(st: AuthState, err: HttpError, stringify: User -> string)
    ensures var r := LoggedIn(st, Failed(err), stringify);
      r.stores == Cleared(st).stores && r.user == None && !r.isLoading
    ensures IsUnauthorized(err) ==> LoggedIn(st, Failed(err), stringify).location == Some(SignInPath)
    ensures !IsUnauthorized(err) ==> LoggedIn(st, Failed(err), stringify) == Cleared(st).(isLoading := false)
  {
    var c := Cleared(st).stores;
    assert c.cookies - {AuthTokenCookie} == c.cookies;
    assert c.local - {TokenItem, UserItem} == c.local;
  }

  /** The session a login writes is the one `checkAuth` reads back: a reload
      right after logging in restores the same user. */
  lemma LoginThenRehydrate(st: AuthState, resp: LoginResponse, stringify: User -> string, parse: string -> ParseResult)
    requires RoundTrip(stringify, parse)
    requires TokenOf(resp) != ""
    ensures var r := Rehydrated(LoggedIn(st, Ok(resp), stringify), parse);
      r.user == Some(UserOf(resp)) && r.stores == LoggedIn(st, Ok(resp), stringify).stores
  {
    var li := LoggedIn(st, Ok(resp), stringify);
    assert Lookup(li.stores.cookies, AuthTokenCookie) == TokenOf(resp);
    assert Lookup(li.stores.local, UserItem) == stringify(UserOf(resp));
    assert parse(stringify(UserOf(resp))) == Parsed(Some(UserOf(resp)));
  }

  /** Running `checkAuth` twice gives the same state as running it once. */
  lemma RehydrateIdempotent(st: AuthState, parse: string -> ParseResult)
    ensures Rehydrated(Rehydrated(st, parse), parse) == Rehydrated(st, parse)
  {
    var once := Rehydrated(st, parse);
    if StoredUser(st.stores, parse).ParseError? {
      assert Lookup(once.stores.cookies, AuthTokenCookie) == "";
    }
  }

  /** `checkAuth` never reads the `user` cookie: changing it changes nothing
      about who is signed in afterwards. */
  lemma RehydrateIgnoresUserCookie(st: AuthState, parse: string -> ParseResult, other: string)
    ensures var st' := st.(stores := st.stores.(cookies := st.stores.cookies[UserCookie := other]));
      Rehydrated(st', parse).user == Rehydrated(st, parse).user
  {
    var st' := st.(stores := st.stores.(cookies := st.stores.cookies[UserCookie := other]));
    assert Lookup(st'.stores.cookies, AuthTokenCookie) == Lookup(st.stores.cookies, AuthTokenCookie);
  }

  /** With both a token cookie and a good-looking `user` cookie but no
      localStorage record, a reload signs the user out and clears everything. */
  lemma CookieOnlySessionIsCleared(st: AuthState, parse: string -> ParseResult)
    requires Lookup(st.stores.cookies, AuthTokenCookie) != ""
    requires UserItem !in st.stores.local
    ensures var r := Rehydrated(st, parse); NoSession(r.stores) && !IsAuthenticated(r)
  {
  }

  /** A stored record that parses to `null` is not treated as invalid: the
      user stays null but the stores are not cleared. */
  lemma NullRecordKeepsStores(st: AuthState, parse: string -> ParseResult)
    requires StoredUser(st.stores, parse) == Parsed(None)
    ensures var r := Rehydrated(st, parse); r.stores == st.stores && !IsAuthenticated(r)
  {
  }

  /** A 401 leaves the `user` cookie behind, yet the next `checkAuth` finds no
      token and clears the whole session. */
  lemma UnauthorizedThenRehydrate(st: AuthState, parse: string -> ParseResult)
    ensures var r := Rehydrated(st.(stores := RemoveOnUnauthorized(st.stores)), parse);
      NoSession(r.stores) && !IsAuthenticated(r)
  {
    var st' := st.(stores := RemoveOnUnauthorized(st.stores));
    assert Lookup(st'.stores.cookies, AuthTokenCookie) == "";
  }

  /** After logout every protected page redirects to sign in, with the page
      as the callback. */
  lemma LogoutThenGuardRedirects(st: AuthState, path: string)
    requires !RouteGuard.IsPublicRoute(path)
    ensures RouteGuard.Middleware(path, LoggedOut(st).stores.cookies) == RouteGuard.Redirect(RouteGuard.SignInRoute, path)
  {
    assert !RouteGuard.HasToken(LoggedOut(st).stores.cookies);
  }

  /** After a login with a token, later requests carry that token as bearer. */
  lemma LoginThenBearer(st: AuthState, resp: LoginResponse, stringify: User -> string, headers: map<string, string>)
    requires TokenOf(resp) != ""
    ensures var h := Authorized(headers, LoggedIn(st, Ok(resp), stringify).stores);
      h[AuthorizationHeader] == "Bearer " + TokenOf(resp)
  {
    assert RequestToken(LoggedIn(st, Ok(resp), stringify).stores) == TokenOf(resp);
  }

  /** `AuthProvider`: the in-memory half of the session, next to the browser. */
  class AuthProvider {
    const browser: Browser
    var user: Option<User>
    var isLoading: bool

    ghost function State(): AuthState
      reads this, browser
    {
      AuthState(browser.Snapshot(), user, isLoading, browser.location)
    }

    /** `useState<User | null>(null)` and `useState(true)`. */
    constructor (browser: Browser)
      ensures this.browser == browser && user == None && isLoading
    {
      this.browser := browser;
      user := None;
      isLoading := true;
    }

    method ClearAuthData()
      modifies this, browser
      ensures State() == Cleared(old(State()))
    {
      browser.RemoveCookie(AuthTokenCookie);
      browser.RemoveCookie(UserCookie);
      browser.RemoveItem(TokenItem);
      browser.RemoveItem(UserItem);
      user := None;
    }

    method CheckAuth(parse: string -> ParseResult)
      modifies this, browser
      ensures State() == Rehydrated(old(State()), parse)
    {
      var token := Lookup(browser.cookies, AuthTokenCookie);
      if token != "" {
        var userData := Lookup(browser.local, UserItem);
        if userData != "" {
          match parse(userData) {
            case Parsed(u) => user := u;
            case ParseError => ClearAuthData();
          }
        } else {
          ClearAuthData();
        }
      } else {
        ClearAuthData();
      }
      isLoading := false;
    }

    /** `threw` is the rethrown error of a failed call. */
    method Login(reply: Reply<LoginResponse>, stringify: User -> string) returns (threw: bool)
      modifies this, browser
      ensures State() == LoggedIn(old(State()), reply, stringify)
      ensures threw <==> reply.Failed?
    {
      isLoading := true;
      ClearAuthData();
      threw := false;
      match reply {
        case Failed(err) =>
          var _ := browser.InterceptError(err);
          threw := true;
        case Ok(resp) =>
          var token := TokenOf(resp);
          if token != "" {
            browser.SetCookie(AuthTokenCookie, token);
            browser.SetItem(TokenItem, token);
            var userData := UserOf(resp);
            browser.SetItem(UserItem, stringify(userData));
            browser.SetCookie(UserCookie, stringify(userData));
            user := Some(userData);
            browser.Navigate(HomeRoute);
          }
      }
      isLoading := false;
    }

    method Logout()
      modifies this, browser
      ensures State() == LoggedOut(old(State()))
    {
      var _ := browser.Logout();
      user := None;
      browser.Navigate(SignInPath);
    }
  }
}

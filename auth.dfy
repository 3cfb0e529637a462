/** The front end's session store: login, logout and current-user calls
    record or remove the session in localStorage; isAuthenticated and
    getStoredUser read it back.

    The server's answer to each call is a parameter (`Ok` with the response
    body, or `Err` with the error the call rejects with). */
module AuthApi {
  import opened Common
  import opened BrowserStorage

  /** The login response body; any of its fields may be missing. */
  datatype LoginData = LoginData(accessToken: Option<string>, refreshToken: Option<string>, user: Option<Json>)

  /** The storage after a successful login. */
  function LoginStorage(storage: map<string, StoredValue>, data: LoginData): map<string, StoredValue> {
    storage[ACCESS_TOKEN_KEY := TextOrUndefined(data.accessToken)]
           [REFRESH_TOKEN_KEY := TextOrUndefined(data.refreshToken)]
           [USER_KEY := StringifiedOrUndefined(data.user)]
  }

  /** isAuthenticated: a non-empty access-token value is stored. */
  predicate IsAuthenticated(storage: map<string, StoredValue>) {
    ItemTruthy(storage, ACCESS_TOKEN_KEY)
  }

  /** getStoredUser: null when no (or an empty) user value is stored, else
      JSON.parse of it, which throws on a value that is not a stringified
      document. */
  function GetStoredUser(storage: map<string, StoredValue>): (r: Result<Option<Json>, string>)
    ensures !ItemTruthy(storage, USER_KEY) ==> r == Ok(None)
    ensures r.Ok? && r.value.Some? ==> storage[USER_KEY] == Serialized(r.value.value)
    ensures r.Err? ==> USER_KEY in storage && storage[USER_KEY].Text?
    ensures ItemTruthy(storage, USER_KEY) && storage[USER_KEY].Serialized? ==> r == Ok(Some(storage[USER_KEY].doc))
    ensures ItemTruthy(storage, USER_KEY) && storage[USER_KEY].Text? ==> r.Err?
  {
    if !ItemTruthy(storage, USER_KEY) then Ok(None)
    else match Parse(storage[USER_KEY])
         case Ok(doc) => Ok(Some(doc))
         case Err(e) => Err(e)
  }

  // ---------------------------------------------------------------------------
  // The calls that write localStorage
  // ---------------------------------------------------------------------------

  method Login(window: Browser, response: Result<LoginData, string>) returns (r: Result<LoginData, string>)
    modifies window
    ensures r == response
    ensures response.Ok? ==> window.storage == LoginStorage(old(window.storage), response.value)
    ensures response.Err? ==> window.storage == old(window.storage)
    ensures window.location == old(window.location)
  {
    if response.Err? {
      return response;
    }
    var data := response.value;
    window.SetItem(ACCESS_TOKEN_KEY, TextOrUndefined(data.accessToken));
    window.SetItem(REFRESH_TOKEN_KEY, TextOrUndefined(data.refreshToken));
    window.SetItem(USER_KEY, StringifiedOrUndefined(data.user));
    r := response;
  }

  /** logout: the server's answer is `serverError` (None on success); the
      three keys are removed either way and the error is passed on. */
  method Logout(window: Browser, serverError: Option<string>) returns (r: Option<string>)
    modifies window
    ensures r == serverError
    ensures window.storage == ClearSession(old(window.storage))
    ensures window.location == old(window.location)
  {
    window.RemoveSession();
    r := serverError;
  }

  method GetCurrentUser(window: Browser, response: Result<Json, string>) returns (r: Result<Json, string>)
    modifies window
    ensures r == response
    ensures response.Ok? ==> window.storage == old(window.storage)[USER_KEY := Serialized(response.value)]
    ensures response.Err? ==> window.storage == old(window.storage)
    ensures window.location == old(window.location)
  {
    if response.Ok? {
      window.SetItem(USER_KEY, Serialized(response.value));
    }
    r := response;
  }

  // ---------------------------------------------------------------------------
  // Properties
  // ---------------------------------------------------------------------------

  /** After a login whose body carries a non-empty token, the user is
      authenticated; a body without access_token stores the text
      "undefined", which also counts as authenticated. */
  lemma LoginAuthenticates(storage: map<string, StoredValue>, data: LoginData)
    requires data.accessToken.None? || data.accessToken.value != ""
    ensures IsAuthenticated(LoginStorage(storage, data))
    ensures ItemText(LoginStorage(storage, data)[ACCESS_TOKEN_KEY])
      == (if data.accessToken.Some? then data.accessToken.value else "undefined")
  {
  }

  /** After login, getStoredUser gives back the user of the login body; when
      the body has no user, the stored "undefined" makes it throw. */
  lemma LoginThenStoredUser(storage: map<string, StoredValue>, data: LoginData)
    ensures data.user.Some? ==> GetStoredUser(LoginStorage(storage, data)) == Ok(Some(data.user.value))
    ensures data.user.None? ==> GetStoredUser(LoginStorage(storage, data)).Err?
  {
    var s := LoginStorage(storage, data);
    assert s[USER_KEY] == StringifiedOrUndefined(data.user);
  }

  /** After logout nobody is authenticated and no user is stored, whatever
      the storage held and whatever the server answered. */
  lemma LogoutSignsOut(storage: map<string, StoredValue>)
    ensures !IsAuthenticated(ClearSession(storage))
    ensures GetStoredUser(ClearSession(storage)) == Ok(None)
    ensures REFRESH_TOKEN_KEY !in ClearSession(storage)
  {
  }

  /** Login followed by logout leaves the user signed out. */
  lemma LoginThenLogout(storage: map<string, StoredValue>, data: LoginData)
    ensures !IsAuthenticated(ClearSession(LoginStorage(storage, data)))
    ensures GetStoredUser(ClearSession(LoginStorage(storage, data))) == Ok(None)
  {
    LogoutSignsOut(LoginStorage(storage, data));
  }

  /** getCurrentUser changes the user key only: the tokens, and so
      isAuthenticated, are as before, and getStoredUser returns the fetched user. */
  lemma CurrentUserTouchesOnlyUser(storage: map<string, StoredValue>, user: Json)
    ensures forall k :: k in storage && k != USER_KEY ==>
      k in storage[USER_KEY := Serialized(user)] && storage[USER_KEY := Serialized(user)][k] == storage[k]
    ensures IsAuthenticated(storage[USER_KEY := Serialized(user)]) == IsAuthenticated(storage)
    ensures GetStoredUser(storage[USER_KEY := Serialized(user)]) == Ok(Some(user))
  {
  }

  /** Login does not touch keys other than the three session keys. */
  lemma LoginKeepsOtherKeys(storage: map<string, StoredValue>, data: LoginData, k: string)
    requires k in storage && k !in SESSION_KEYS
    ensures k in LoginStorage(storage, data) && LoginStorage(storage, data)[k] == storage[k]
  {
  }
}

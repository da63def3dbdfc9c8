/** The client's authentication API (frontend/src/api/auth.js): the fixed
    method and path of each authentication call, and the three operations
    that work on the session store alone. */
module AuthApi {
  import opened Common
  import opened JsonValue
  import opened SessionStore
  import opened AxiosInstance

  /** The four calls that go through `apiCall`. */
  datatype AuthCall = LoginCall | RefreshTokenCall | CurrentUserCall | RegisterCall

  /** A method and a path relative to the base address. */
  datatype Endpoint = Endpoint(verb: string, path: string)

  /** The endpoint of each call. */
  function Route(c: AuthCall): Endpoint {
    match c
    case LoginCall => Endpoint("post", "token/")
    case RefreshTokenCall => Endpoint("post", "token/refresh/")
    case CurrentUserCall => Endpoint("get", "user/me/")
    case RegisterCall => Endpoint("post", "user/register/")
  }

  /** The request `apiCall` hands to the instance for a call with `data`
      (`null` when the caller passes none). */
  function CallRequest(c: AuthCall, data: Json): (r: Request)
    ensures Endpoint(r.verb, r.url) == Route(c)
    ensures r.data == data && !r.retried && r.headers == DefaultHeaders
  {
    NewRequest(Route(c).verb, Route(c).path, data)
  }

  /** `refreshToken(t)` posts the body `{refresh: t}`. */
  function RefreshTokenBody(token: string): Json {
    JObj(map["refresh" := JStr(token)])
  }

  /** No two calls share a route, and only the profile read is a GET. */
  lemma {:induction false} RoutesDistinct(a: AuthCall, b: AuthCall)
    ensures Route(a) == Route(b) ==> a == b
    ensures Route(a).verb == "get" <==> a == CurrentUserCall
  {
    var ra, rb := Route(a), Route(b);
    if a != b {
      // the paths differ in length or in their first characters
      assert |ra.path| != |rb.path| || ra.path[0] != rb.path[0];
    }
  }

  /** `isAuthenticated()`: `!!localStorage.getItem('access')`. */
  predicate IsAuthenticated(items: map<string, string>) {
    Holds(items, AccessKey)
  }

  /** `getStoredUser()`: the parsed `user` entry, or `null` when the entry
      is absent or empty. */
  function StoredUser(items: map<string, string>, codec: Codec): (u: Json)
    ensures !Holds(items, UserKey) ==> u == JNull
    ensures Holds(items, UserKey) ==> u == codec.parse(items[UserKey])
  {
    if Holds(items, UserKey) then codec.parse(items[UserKey]) else JNull
  }

  /** The store after `logout()`: the four session entries are gone. */
  function LoggedOut(items: map<string, string>): map<string, string> {
    items - SessionKeys
  }

  /** `logout()`: four removals from the store, one at a time. */
  method Logout(st: Storage)
    modifies st
    ensures st.items == LoggedOut(old(st.items))
  {
    st.Remove(AccessKey);
    st.Remove(RefreshKey);
    st.Remove(UserKey);
    st.Remove(IsStaffKey);
    assert st.items == old(st.items) - {AccessKey} - {RefreshKey} - {UserKey} - {IsStaffKey};
  }

  /** After `logout()` nobody is signed in and no user is stored, while
      every entry outside the session keeps its value. */
  lemma {:induction false} LogoutClearsSession(items: map<string, string>, codec: Codec)
    ensures !IsAuthenticated(LoggedOut(items))
    ensures StoredUser(LoggedOut(items), codec) == JNull
    ensures forall k :: k in LoggedOut(items) <==> k in items && k !in SessionKeys
    ensures forall k :: k in LoggedOut(items) ==> LoggedOut(items)[k] == items[k]
  {
    assert AccessKey in SessionKeys && UserKey in SessionKeys;
  }

  /** A second `logout()` leaves the store as the first left it. */
  lemma {:induction false} LogoutIdempotent(items: map<string, string>)
    ensures LoggedOut(LoggedOut(items)) == LoggedOut(items)
  {
    assert forall k :: k in LoggedOut(LoggedOut(items)) <==> k in LoggedOut(items);
  }

  /** The interceptor's teardown is not a logout: it keeps the `user` entry,
      so the two agree exactly when no user is stored; a logout after it
      finishes the job. */
  lemma {:induction false} TeardownKeepsUser(items: map<string, string>)
    ensures Teardown(items) == LoggedOut(items) <==> UserKey !in items
    ensures UserKey in items ==> UserKey in Teardown(items) && Teardown(items)[UserKey] == items[UserKey]
    ensures !IsAuthenticated(Teardown(items))
    ensures LoggedOut(Teardown(items)) == LoggedOut(items)
  {
    if UserKey in items {
      assert UserKey in Teardown(items) && UserKey !in LoggedOut(items);
    } else {
      assert forall k :: k in Teardown(items) <==> k in LoggedOut(items);
    }
    assert forall k :: k in LoggedOut(Teardown(items)) <==> k in LoggedOut(items);
  }
}

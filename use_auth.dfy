/** The authentication hook (frontend/src/hooks/useAuth.js): sign-in as a
    token call, two token writes, a profile read and two profile writes, in
    that order; registration; sign-out; the profile load on mount; and the
    role read used by the route guards. */
module UseAuth {
  import opened Common
  import opened JsonValue
  import opened SessionStore
  import opened AxiosInstance
  import opened AuthApi

  const LoginFailedMessage := "Login failed"
  const LoginErrorFallback := "An error occurred during login"
  const ProfileFailedMessage := "Failed to get user information"
  const LoginSucceededMessage := "Login successful"
  const RegisterFailedMessage := "Registration failed"
  const RegisterErrorFallback := "An error occurred during registration"
  const RegisterSucceededMessage := "Registration successful. Please login."

  /** What `login` and `register` return: `{success: true, user?, message}`
      or `{success: false, error}`. */
  datatype AuthResult = Succeeded(user: Option<Json>, message: string) | Failed(error: string)

  /** The body of the token call. */
  function Credentials(username: string, password: string): Json {
    JObj(map["username" := JStr(username), "password" := JStr(password)])
  }

  /** `isAdmin()`: `storedUser?.est_admin || false`. */
  function IsAdmin(items: map<string, string>, codec: Codec): (r: Json)
    ensures Truthy(r) <==> Truthy(Get(StoredUser(items, codec), "est_admin"))
    ensures !Holds(items, UserKey) ==> r == JBool(false)
  {
    Or(Get(StoredUser(items, codec), "est_admin"), JBool(false))
  }

  /** What `localStorage.setItem('is_staff', profile.est_admin || false)`
      stores. */
  function StaffFlag(profile: Json): string {
    ToJsString(Or(Get(profile, "est_admin"), JBool(false)))
  }

  /** The store after the two token writes of a successful token call. */
  function WithTokens(items: map<string, string>, data: Json): map<string, string> {
    items[AccessKey := ToJsString(Get(data, "access"))][RefreshKey := ToJsString(Get(data, "refresh"))]
  }

  /** One run of `login`: its result, the store after it, the exchanges of
      the calls it made (one or two), and the profile it put in the hook's
      `user` state, if any. */
  datatype LoginRun = LoginRun(
    result: AuthResult,
    items: map<string, string>,
    calls: seq<Exchange>,
    profile: Option<Json>)

  /** `login(username, password)` as a function of the store and the
      replies. A thrown error's message falls back as the `catch` does. */
  function LoginSpec(base: string, items: map<string, string>, codec: Codec, pathname: string,
                     username: string, password: string, replies: seq<Reply>): LoginRun
  {
    var x1 := Interception(base, items, CallRequest(LoginCall, Credentials(username, password)),
                           pathname, replies);
    var r1 := Normalise(x1.outcome);
    if r1.ApiErr? then
      var thrown := Or(Get(r1.error, "detail"), JStr(LoginFailedMessage));
      LoginRun(Failed(CaughtMessage(thrown, LoginErrorFallback)), x1.items, [x1], None)
    else if Nullish(r1.data) then
      LoginRun(Failed(DestructureMessage("access", "result.data", r1.data)), x1.items, [x1], None)
    else
      var x2 := Interception(base, WithTokens(x1.items, r1.data), CallRequest(CurrentUserCall, JNull),
                             pathname, x1.rest);
      var r2 := Normalise(x2.outcome);
      if r2.ApiErr? then
        LoginRun(Failed(ProfileFailedMessage), x2.items, [x1, x2], None)
      else
        var withUser := x2.items[UserKey := codec.stringify(r2.data)];
        if Nullish(r2.data) then
          LoginRun(Failed(PropertyReadMessage("est_admin", r2.data)), withUser, [x1, x2], None)
        else
          LoginRun(Succeeded(Some(r2.data), LoginSucceededMessage),
                   withUser[IsStaffKey := StaffFlag(r2.data)], [x1, x2], Some(r2.data))
  }

  /** One run of `register`: its result and the exchange of its one call. */
  datatype RegisterRun = RegisterRun(result: AuthResult, call: Exchange)

  /** `register(userData)`: the error value is thrown as it is, so the
      message is its string form. */
  function RegisterSpec(base: string, items: map<string, string>, pathname: string,
                        userData: Json, replies: seq<Reply>): RegisterRun
  {
    var x := Interception(base, items, CallRequest(RegisterCall, userData), pathname, replies);
    var r := Normalise(x.outcome);
    if r.ApiOk? then RegisterRun(Succeeded(None, RegisterSucceededMessage), x)
    else RegisterRun(Failed(CaughtMessage(Or(r.error, JStr(RegisterFailedMessage)), RegisterErrorFallback)), x)
  }

  /** The effect on mount: the store afterwards, the profile put in `user`
      state, the profile call made, and the page sign-out sends the browser
      to. */
  datatype LoadRun = LoadRun(
    items: map<string, string>,
    profile: Option<Json>,
    call: Option<Exchange>,
    target: Option<string>)

  function LoadUserSpec(base: string, items: map<string, string>, codec: Codec, pathname: string,
                        replies: seq<Reply>): LoadRun
  {
    if !IsAuthenticated(items) then LoadRun(items, None, None, None)
    else
      var x := Interception(base, items, CallRequest(CurrentUserCall, JNull), pathname, replies);
      var r := Normalise(x.outcome);
      if r.ApiOk? then LoadRun(x.items[UserKey := codec.stringify(r.data)], Some(r.data), Some(x), None)
      else LoadRun(LoggedOut(x.items), None, Some(x), Some(LoginPath))
  }

  /** The hook's React state. */
  class AuthHook {
    var user: Json
    var loading: bool
    var error: Option<string>

    constructor ()
      ensures user == JNull && loading && error == None
    {
      user := JNull;
      loading := true;
      error := None;
    }

    method Login(st: Storage, base: string, codec: Codec, pathname: string,
                 username: string, password: string, replies: seq<Reply>)
      returns (res: AuthResult, calls: seq<Exchange>)
      modifies this, st
      ensures var run := LoginSpec(base, old(st.items), codec, pathname, username, password, replies);
        && res == run.result && calls == run.calls && st.items == run.items
        && user == (if run.profile.Some? then run.profile.value else old(user))
      ensures error == (if res.Failed? then Some(res.error) else None)
      ensures !loading
    {
      loading := true;
      error := None;
      var r1, x1 := ApiCall(st, base, Route(LoginCall).verb, Route(LoginCall).path,
                            Credentials(username, password), pathname, replies);
      calls := [x1];
      if r1.ApiErr? {
        var thrown := Or(Get(r1.error, "detail"), JStr(LoginFailedMessage));
        res := Failed(CaughtMessage(thrown, LoginErrorFallback));
      } else if Nullish(r1.data) {
        res := Failed(DestructureMessage("access", "result.data", r1.data));
      } else {
        st.Set(AccessKey, ToJsString(Get(r1.data, "access")));
        st.Set(RefreshKey, ToJsString(Get(r1.data, "refresh")));
        var r2, x2 := ApiCall(st, base, Route(CurrentUserCall).verb, Route(CurrentUserCall).path,
                              JNull, pathname, x1.rest);
        calls := [x1, x2];
        if r2.ApiOk? {
          st.Set(UserKey, codec.stringify(r2.data));
          if Nullish(r2.data) {
            res := Failed(PropertyReadMessage("est_admin", r2.data));
          } else {
            st.Set(IsStaffKey, StaffFlag(r2.data));
            user := r2.data;
            res := Succeeded(Some(r2.data), LoginSucceededMessage);
          }
        } else {
          res := Failed(ProfileFailedMessage);
        }
      }
      if res.Failed? {
        error := Some(res.error);
      }
      loading := false;
    }

    method Register(st: Storage, base: string, pathname: string, userData: Json, replies: seq<Reply>)
      returns (res: AuthResult, call: Exchange)
      modifies this, st
      ensures var run := RegisterSpec(base, old(st.items), pathname, userData, replies);
        res == run.result && call == run.call && st.items == run.call.items
      ensures error == (if res.Failed? then Some(res.error) else None)
      ensures user == old(user) && !loading
    {
      loading := true;
      error := None;
      var r, x := ApiCall(st, base, Route(RegisterCall).verb, Route(RegisterCall).path,
                          userData, pathname, replies);
      call := x;
      if r.ApiOk? {
        res := Succeeded(None, RegisterSucceededMessage);
      } else {
        res := Failed(CaughtMessage(Or(r.error, JStr(RegisterFailedMessage)), RegisterErrorFallback));
        error := Some(res.error);
      }
      loading := false;
    }

    /** `logout()`: the page to go to is returned rather than assigned to
        `window.location.href`. */
    method Logout(st: Storage) returns (target: string)
      modifies this, st
      ensures st.items == LoggedOut(old(st.items))
      ensures user == JNull && error == None && loading == old(loading)
      ensures target == LoginPath
    {
      AuthApi.Logout(st);
      user := JNull;
      error := None;
      target := LoginPath;
    }

    method LoadUser(st: Storage, base: string, codec: Codec, pathname: string, replies: seq<Reply>)
      returns (call: Option<Exchange>, target: Option<string>)
      modifies this, st
      ensures var run := LoadUserSpec(base, old(st.items), codec, pathname, replies);
        && st.items == run.items && call == run.call && target == run.target
        && user == (if run.profile.Some? then run.profile.value
                    else if run.target.Some? then JNull else old(user))
      ensures error == (if target.Some? then None else old(error))
      ensures !loading
    {
      call, target := None, None;
      var token := st.Get(AccessKey);
      if token.Some? && token.value != "" {
        var r, x := ApiCall(st, base, Route(CurrentUserCall).verb, Route(CurrentUserCall).path,
                            JNull, pathname, replies);
        call := Some(x);
        if r.ApiOk? {
          st.Set(UserKey, codec.stringify(r.data));
          user := r.data;
        } else {
          var to := Logout(st);
          target := Some(to);
        }
      }
      loading := false;
    }
  }

  // ----- properties of the sign-in sequence -----

  /** A failed token call: the hook itself writes nothing (the store is what
      the transport left), makes no second call, sets no user, and reports a
      non-empty error. When that failure was not a 401 the store is exactly
      as before. */
  lemma {:induction false} LoginTokenFailureWritesNothing(base: string, items: map<string, string>,
      codec: Codec, pathname: string, username: string, password: string, replies: seq<Reply>)
    requires !Accepted(Head(replies))
    requires !Unauthorized(Head(replies))
    ensures var run := LoginSpec(base, items, codec, pathname, username, password, replies);
      && run.result.Failed? && run.result.error != ""
      && run.items == items
      && |run.calls| == 1
      && run.profile == None
  {
    var config := CallRequest(LoginCall, Credentials(username, password));
    OtherErrorsPassThrough(base, items, config, pathname, replies);
  }

  /** Whatever the replies, the token call's failure stops the sequence
      before any write of the hook's own. */
  lemma {:induction false} LoginStopsOnTokenFailure(base: string, items: map<string, string>,
      codec: Codec, pathname: string, username: string, password: string, replies: seq<Reply>)
    ensures var run := LoginSpec(base, items, codec, pathname, username, password, replies);
      run.calls[0].outcome.Rejected? ==>
        && run.result.Failed? && run.result.error != ""
        && run.items == run.calls[0].items
        && |run.calls| == 1 && run.profile == None
  {
  }

  /** The token writes come before the profile read: when the token call
      returns a body whose `access` prints as a non-empty string, the
      profile request goes out carrying that new token as its bearer. */
  lemma {:induction false} ProfileFetchCarriesNewToken(base: string, items: map<string, string>,
      codec: Codec, pathname: string, username: string, password: string, replies: seq<Reply>)
    requires |replies| >= 1 && Accepted(replies[0]) && !Nullish(replies[0].response.body)
    requires ToJsString(Get(replies[0].response.body, "access")) != ""
    ensures var run := LoginSpec(base, items, codec, pathname, username, password, replies);
      var token := ToJsString(Get(replies[0].response.body, "access"));
      && |run.calls| == 2 && |run.calls[1].sent| > 0
      && run.calls[1].sent[0].ToApi?
      && run.calls[1].sent[0].req.url == Route(CurrentUserCall).path
      && AuthorizationHeader in run.calls[1].sent[0].req.headers
      && run.calls[1].sent[0].req.headers[AuthorizationHeader] == Bearer(token)
  {
    var w := LoginCallsOnToken(base, items, codec, pathname, username, password, replies);
    var token := ToJsString(Get(replies[0].response.body, "access"));
    assert Holds(w, AccessKey) && w[AccessKey] == token;
    AtMostOneRefresh(base, w, CallRequest(CurrentUserCall, JNull), pathname, Interception(base, items,
      CallRequest(LoginCall, Credentials(username, password)), pathname, replies).rest);
  }

  /** After an accepted token call with a body, the second call is the
      profile read, intercepted over the store `w` holding the new tokens. */
  lemma LoginCallsOnToken(base: string, items: map<string, string>,
      codec: Codec, pathname: string, username: string, password: string, replies: seq<Reply>)
    returns (w: map<string, string>)
    requires |replies| >= 1 && Accepted(replies[0]) && !Nullish(replies[0].response.body)
    ensures var x1 := Interception(base, items, CallRequest(LoginCall, Credentials(username, password)),
                                   pathname, replies);
      && w == WithTokens(x1.items, replies[0].response.body)
      && w[AccessKey] == ToJsString(Get(replies[0].response.body, "access"))
      && LoginSpec(base, items, codec, pathname, username, password, replies).calls ==
         [x1, Interception(base, w, CallRequest(CurrentUserCall, JNull), pathname, x1.rest)]
  {
    var x1 := Interception(base, items, CallRequest(LoginCall, Credentials(username, password)),
                           pathname, replies);
    assert x1.outcome == Resolved(replies[0].response);
    w := WithTokens(x1.items, replies[0].response.body);
  }

  /** A failed profile read after a successful token call: the tokens stay
      written, no `user` or `is_staff` entry is written, and the error is
      the fixed profile message. With a first profile reply that is neither
      a success nor a 401, the store is exactly the token writes. */
  lemma {:induction false} ProfileFailureKeepsTokens(base: string, items: map<string, string>,
      codec: Codec, pathname: string, username: string, password: string, replies: seq<Reply>)
    requires |replies| >= 2 && Accepted(replies[0]) && !Nullish(replies[0].response.body)
    requires !Accepted(replies[1]) && !Unauthorized(replies[1])
    ensures var run := LoginSpec(base, items, codec, pathname, username, password, replies);
      && run.result == Failed(ProfileFailedMessage)
      && run.items == WithTokens(items, replies[0].response.body)
      && (UserKey in run.items <==> UserKey in items)
      && (IsStaffKey in run.items <==> IsStaffKey in items)
      && run.profile == None
  {
    var config := CallRequest(LoginCall, Credentials(username, password));
    var x1 := Interception(base, items, config, pathname, replies);
    assert x1.items == items && x1.rest == replies[1..];
    var w := WithTokens(items, replies[0].response.body);
    OtherErrorsPassThrough(base, w, CallRequest(CurrentUserCall, JNull), pathname, replies[1..]);
  }

  /** A complete sign-in stores the profile under `user` and its role flag
      under `is_staff`, keeps the token entries the profile call left, puts
      the profile in `user` state, and succeeds. */
  lemma {:induction false} LoginSuccessStoresProfile(base: string, items: map<string, string>,
      codec: Codec, pathname: string, username: string, password: string, replies: seq<Reply>)
    ensures var run := LoginSpec(base, items, codec, pathname, username, password, replies);
      run.result.Succeeded? ==>
        && run.profile.Some? && run.result.user == run.profile
        && |run.calls| == 2
        && run.calls[0].outcome.Resolved? && run.calls[1].outcome.Resolved?
        && run.profile.value == run.calls[1].outcome.response.body
        && run.items == run.calls[1].items[UserKey := codec.stringify(run.profile.value)]
                                          [IsStaffKey := StaffFlag(run.profile.value)]
        && run.items[UserKey] == codec.stringify(run.profile.value)
        && run.items[IsStaffKey] == StaffFlag(run.profile.value)
  {
  }

  /** After a complete sign-in, and given a codec that reads the profile
      back, the role the guards read is the profile's `est_admin` (or
      false). */
  lemma {:induction false} AdminAfterLogin(base: string, items: map<string, string>,
      codec: Codec, pathname: string, username: string, password: string, replies: seq<Reply>)
    ensures var run := LoginSpec(base, items, codec, pathname, username, password, replies);
      run.result.Succeeded? && RoundTrips(codec, run.profile.value)
        && codec.stringify(run.profile.value) != "" ==>
        IsAdmin(run.items, codec) == Or(Get(run.profile.value, "est_admin"), JBool(false))
  {
    var run := LoginSpec(base, items, codec, pathname, username, password, replies);
    if run.result.Succeeded? {
      LoginSuccessStoresProfile(base, items, codec, pathname, username, password, replies);
    }
  }

  /** A token reply of `{}` is taken as a success: the store then holds the
      text "undefined" as both tokens, which counts as signed in, while the
      sign-in itself fails at the profile read. */
  lemma MissingTokensStoredAsUndefined(base: string, items: map<string, string>, codec: Codec,
                                       pathname: string, username: string, password: string)
    ensures var run := LoginSpec(base, items, codec, pathname, username, password,
                                 [Answer(Response(200, JObj(map[])))]);
      && run.items[AccessKey] == "undefined" && run.items[RefreshKey] == "undefined"
      && IsAuthenticated(run.items)
      && run.result == Failed(ProfileFailedMessage)
  {
    var config := CallRequest(LoginCall, Credentials(username, password));
    var replies := [Answer(Response(200, JObj(map[])))];
    var x1 := Interception(base, items, config, pathname, replies);
    assert x1.items == items && x1.rest == [];
    var w := WithTokens(items, JObj(map[]));
    OtherErrorsPassThrough(base, w, CallRequest(CurrentUserCall, JNull), pathname, []);
  }

  /** Registration stores nothing of its own, succeeds exactly when the
      call succeeds, and reports a non-empty error otherwise. */
  lemma {:induction false} RegisterWritesNothing(base: string, items: map<string, string>,
      pathname: string, userData: Json, replies: seq<Reply>)
    ensures var run := RegisterSpec(base, items, pathname, userData, replies);
      && (run.result.Succeeded? <==> run.call.outcome.Resolved?)
      && (run.result.Failed? ==> run.result.error != "")
      && (Accepted(Head(replies)) ==> run.call.items == items && run.result.Succeeded?)
  {
  }

  /** A validation error the server returns as an object reaches the page as
      the text "[object Object]": the object itself is thrown. */
  lemma {:induction false} RegisterObjectError(base: string, items: map<string, string>,
      pathname: string, userData: Json, fields: map<string, Json>)
    ensures var run := RegisterSpec(base, items, pathname, userData,
                                    [Answer(Response(400, JObj(fields)))]);
      run.result == Failed("[object Object]") && run.call.items == items
  {
    var config := CallRequest(RegisterCall, userData);
    var replies := [Answer(Response(400, JObj(fields)))];
    OtherErrorsPassThrough(base, items, config, pathname, replies);
    ObjectErrorMessage(fields, RegisterErrorFallback);
  }

  /** On mount: without a token nothing is called; a failed profile read
      signs the user out completely (unlike the interceptor's teardown);
      a successful one stores the profile. */
  lemma {:induction false} LoadUserOutcomes(base: string, items: map<string, string>, codec: Codec,
                                            pathname: string, replies: seq<Reply>)
    ensures var run := LoadUserSpec(base, items, codec, pathname, replies);
      && (!IsAuthenticated(items) ==> run.call == None && run.items == items && run.target == None)
      && (run.call.Some? && run.call.value.outcome.Rejected? ==>
            !IsAuthenticated(run.items) && StoredUser(run.items, codec) == JNull
            && run.target == Some(LoginPath) && run.profile == None)
      && (run.profile.Some? ==> run.items[UserKey] == codec.stringify(run.profile.value))
  {
    var run := LoadUserSpec(base, items, codec, pathname, replies);
    if run.call.Some? && run.call.value.outcome.Rejected? {
      LogoutClearsSession(run.call.value.items, codec);
    }
  }
}

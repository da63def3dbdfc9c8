/** The HTTP session layer of the client (frontend/src/axiosInstance.js): the
    request step that attaches the bearer token, the response step that
    answers a first 401 with one token refresh and one resend, and `apiCall`,
    which folds every outcome into a result value.

    The network is an input: the replies the server gives, in the order the
    requests go out. A request for which no reply is left times out. */
module AxiosInstance {
  import opened Common
  import opened JsonValue
  import opened SessionStore

  const FallbackBaseUrl := "https://task-flow-app-ibcu.onrender.com/api/"
  const TimeoutMessage := "timeout of 10000ms exceeded"
  const NoRefreshTokenMessage := "No refresh token available"
  const LoginPath := "/login"
  const ExpiredLoginUrl := "/login?session=expired"
  const RefreshSuffix := "/api/token/refresh/"
  const AuthorizationHeader := "Authorization"
  const DefaultHeaders: map<string, string> :=
    map["Content-Type" := "application/json", "Accept" := "application/json"]

  /** `process.env.REACT_APP_API_BASE_URL || fallback`. */
  function BaseUrl(env: Option<string>): (r: string)
    ensures r != ""
    ensures env.Some? && env.value != "" ==> r == env.value
    ensures env == None || env == Some("") ==> r == FallbackBaseUrl
  {
    if env.Some? && env.value != "" then env.value else FallbackBaseUrl
  }

  predicate EndsWith(s: string, suffix: string) {
    |suffix| <= |s| && s[|s| - |suffix|..] == suffix
  }

  /** `base.replace(/\/api\/?$/, '')`: one "/api" or "/api/" at the very end
      is cut off; the optional slash is taken when it is there. */
  function StripApiSuffix(base: string): (r: string)
    ensures EndsWith(base, "/api/") ==> base == r + "/api/"
    ensures !EndsWith(base, "/api/") && EndsWith(base, "/api") ==> base == r + "/api"
    ensures !EndsWith(base, "/api/") && !EndsWith(base, "/api") ==> r == base
  {
    if EndsWith(base, "/api/") then base[..|base| - 5]
    else if EndsWith(base, "/api") then base[..|base| - 4]
    else base
  }

  /** The token-refresh address, built from the base address rather than
      relative to it. */
  function RefreshUrl(base: string): (r: string)
    ensures EndsWith(r, RefreshSuffix)
  {
    var r := StripApiSuffix(base) + RefreshSuffix;
    assert r[|r| - |RefreshSuffix|..] == RefreshSuffix;
    r
  }

  /** With or without "/api" and its slash, a base address leads to the same
      refresh endpoint under its root. */
  lemma {:induction false} RefreshUrlOfApiBase(root: string)
    requires !EndsWith(root, "/api") && !EndsWith(root, "/api/")
    ensures RefreshUrl(root) == root + RefreshSuffix
    ensures RefreshUrl(root + "/api") == root + RefreshSuffix
    ensures RefreshUrl(root + "/api/") == root + RefreshSuffix
  {
    var a := root + "/api";
    var b := root + "/api/";
    assert a[|a| - 4..] == "/api";
    assert b[|b| - 5..] == "/api/";
    assert a[..|a| - 4] == root;
    assert b[..|b| - 5] == root;
    assert a[|a| - 1] == 'i';
  }

  /** The deployed fallback address refreshes at its own /api/token/refresh/. */
  lemma FallbackRefreshUrl()
    ensures RefreshUrl(BaseUrl(None)) == "https://task-flow-app-ibcu.onrender.com/api/token/refresh/"
  {
    var base := FallbackBaseUrl;
    assert base[|base| - 5..] == "/api/";
  }

  /** An outgoing request as axios describes it; `retried` is the `_retry`
      flag the response step puts on a request it resends. */
  datatype Request = Request(
    verb: string,
    url: string,
    data: Json,
    headers: map<string, string>,
    retried: bool)

  /** What `apiCall` hands to the instance. */
  function NewRequest(verb: string, url: string, data: Json): Request {
    Request(verb, url, data, DefaultHeaders, false)
  }

  /** The bearer scheme of section 2.1 of RFC 6750. */
  function Bearer(token: string): string {
    "Bearer " + token
  }

  /** The request step: with a non-empty `access` entry in the store, the
      Authorization header carries it as a bearer token; otherwise the
      request goes out as it is. */
  function Authorize(items: map<string, string>, config: Request): (r: Request)
    ensures r.verb == config.verb && r.url == config.url && r.data == config.data
    ensures r.retried == config.retried
    ensures Holds(items, AccessKey) ==>
      AuthorizationHeader in r.headers && r.headers[AuthorizationHeader] == Bearer(items[AccessKey])
    ensures !Holds(items, AccessKey) ==> r.headers == config.headers
    ensures forall h :: h != AuthorizationHeader ==>
      (h in r.headers <==> h in config.headers) && (h in r.headers ==> r.headers[h] == config.headers[h])
  {
    if Holds(items, AccessKey) then
      config.(headers := config.headers[AuthorizationHeader := Bearer(items[AccessKey])])
    else config
  }

  datatype Response = Response(status: int, body: Json)

  /** What the network gives back for one request: an HTTP response, or no
      response at all with the reason axios reports. */
  datatype Reply = Answer(response: Response) | NoAnswer(message: string)

  /** axios resolves exactly the 2xx answers. */
  predicate Accepted(reply: Reply) {
    reply.Answer? && 200 <= reply.response.status < 300
  }

  /** The reply to the next request; a request nobody answers times out. */
  function Head(replies: seq<Reply>): Reply {
    if replies == [] then NoAnswer(TimeoutMessage) else replies[0]
  }

  function Tail(replies: seq<Reply>): seq<Reply> {
    if replies == [] then [] else replies[1..]
  }

  /** A rejected request's error: its message and, when the server answered,
      the response. */
  datatype Failure = Failure(message: string, response: Option<Response>)

  /** The error axios rejects with when a reply is not accepted. */
  function AxiosFailure(reply: Reply): Failure {
    match reply
    case Answer(resp) => Failure("Request failed with status code " + IntToString(resp.status), Some(resp))
    case NoAnswer(msg) => Failure(msg, None)
  }

  /** The TypeError of `const { access } = response.data` on a null or
      undefined body. */
  function DestructureFailure(body: Json): Failure {
    Failure(DestructureMessage("access", "response.data", body), None)
  }

  datatype Settlement = Resolved(response: Response) | Rejected(failure: Failure)

  /** A request put on the network: through the instance, or the bare refresh
      call that bypasses it. */
  datatype Sent = ToApi(req: Request) | ToRefresh(req: Request)

  /** The whole exchange for one request: how it settled, the store after it,
      the requests sent in order, the replies left over, and the page the
      browser is sent to, if any. */
  datatype Exchange = Exchange(
    outcome: Settlement,
    items: map<string, string>,
    sent: seq<Sent>,
    rest: seq<Reply>,
    redirect: Option<string>)

  /** The refresh call: a bare POST of `{refresh}`, no interceptors. */
  function RefreshRequest(base: string, token: string): Request {
    Request("post", RefreshUrl(base), JObj(map["refresh" := JStr(token)]), DefaultHeaders, false)
  }

  /** The three entries the refresh-failure branch removes. */
  function Teardown(items: map<string, string>): map<string, string> {
    items - {AccessKey, RefreshKey, IsStaffKey}
  }

  /** The browser leaves for the login page unless it is already there. */
  function ExpiredRedirect(pathname: string): (r: Option<string>)
    ensures r.Some? <==> pathname != LoginPath
    ensures r.Some? ==> r.value == ExpiredLoginUrl
  {
    if pathname != LoginPath then Some(ExpiredLoginUrl) else None
  }

  /** The case the response step recovers from: a 401 on a request that has
      not been resent yet. */
  predicate FirstUnauthorized(reply: Reply, req: Request) {
    reply.Answer? && reply.response.status == 401 && !req.retried
  }

  /** The case the response step recovers from: a 401 answer. */
  predicate Unauthorized(reply: Reply) {
    reply.Answer? && reply.response.status == 401
  }

  /** The request and response steps around one request, as a function of
      the store, the current page and the replies. */
  function Interception(base: string, items: map<string, string>, config: Request,
                        pathname: string, replies: seq<Reply>): Exchange
    decreases if config.retried then 0 else 2
  {
    var req := Authorize(items, config);
    var reply := Head(replies);
    if Accepted(reply) then
      Exchange(Resolved(reply.response), items, [ToApi(req)], Tail(replies), None)
    else if FirstUnauthorized(reply, req) then
      Recovery(base, items, req, pathname, Tail(replies))
    else
      Exchange(Rejected(AxiosFailure(reply)), items, [ToApi(req)], Tail(replies), None)
  }

  /** The response step after a first 401 on `req` (already sent): the
      request is flagged and, given a refresh token, one refresh call goes
      out; on its success the new access token is stored and the flagged
      request passes through the whole pipeline again, where the flag stops
      any further refresh. Any failure on the way tears the session down. */
  function Recovery(base: string, items: map<string, string>, req: Request,
                    pathname: string, rest: seq<Reply>): Exchange
    decreases 1
  {
    if !Holds(items, RefreshKey) then
      Exchange(Rejected(Failure(NoRefreshTokenMessage, None)), Teardown(items),
               [ToApi(req)], rest, ExpiredRedirect(pathname))
    else
      var call := RefreshRequest(base, items[RefreshKey]);
      var answer := Head(rest);
      if Accepted(answer) && !Nullish(answer.response.body) then
        var access := ToJsString(Get(answer.response.body, "access"));
        var resend := req.(retried := true,
                           headers := req.headers[AuthorizationHeader := Bearer(access)]);
        var inner := Interception(base, items[AccessKey := access], resend, pathname, Tail(rest));
        inner.(sent := [ToApi(req), ToRefresh(call)] + inner.sent)
      else
        var failure := if Accepted(answer) then DestructureFailure(answer.response.body)
                       else AxiosFailure(answer);
        Exchange(Rejected(failure), Teardown(items), [ToApi(req), ToRefresh(call)],
                 Tail(rest), ExpiredRedirect(pathname))
  }

  /** The interceptor chain run on the live store, one step at a time. */
  method Dispatch(st: Storage, base: string, config: Request, pathname: string, replies: seq<Reply>)
    returns (x: Exchange)
    modifies st
    ensures x == Interception(base, old(st.items), config, pathname, replies)
    ensures st.items == x.items
    decreases if config.retried then 0 else 2
  {
    // request step
    var req := config;
    var token := st.Get(AccessKey);
    if token.Some? && token.value != "" {
      req := req.(headers := req.headers[AuthorizationHeader := Bearer(token.value)]);
    }
    // response step
    var reply := Head(replies);
    if Accepted(reply) {
      x := Exchange(Resolved(reply.response), st.items, [ToApi(req)], Tail(replies), None);
    } else if reply.Answer? && reply.response.status == 401 && !req.retried {
      x := Recover(st, base, req, pathname, Tail(replies));
    } else {
      x := Exchange(Rejected(AxiosFailure(reply)), st.items, [ToApi(req)], Tail(replies), None);
    }
  }

  /** The `catch` branch's cleanup: three removals, `user` untouched. */
  method ClearTokens(st: Storage)
    modifies st
    ensures st.items == Teardown(old(st.items))
  {
    st.Remove(AccessKey);
    st.Remove(RefreshKey);
    st.Remove(IsStaffKey);
  }

  /** The 401 branch of the response step on the live store. */
  method Recover(st: Storage, base: string, req: Request, pathname: string, rest: seq<Reply>)
    returns (x: Exchange)
    modifies st
    ensures x == Recovery(base, old(st.items), req, pathname, rest)
    ensures st.items == x.items
    decreases 1
  {
    var flagged := req.(retried := true);
    var refreshToken := st.Get(RefreshKey);
    if refreshToken.None? || refreshToken.value == "" {
      ClearTokens(st);
      return Exchange(Rejected(Failure(NoRefreshTokenMessage, None)), st.items,
                      [ToApi(req)], rest, ExpiredRedirect(pathname));
    }
    var call := RefreshRequest(base, refreshToken.value);
    var answer := Head(rest);
    if Accepted(answer) && !Nullish(answer.response.body) {
      var access := ToJsString(Get(answer.response.body, "access"));
      st.Set(AccessKey, access);
      flagged := flagged.(headers := flagged.headers[AuthorizationHeader := Bearer(access)]);
      var inner := Dispatch(st, base, flagged, pathname, Tail(rest));
      return inner.(sent := [ToApi(req), ToRefresh(call)] + inner.sent);
    }
    var failure := if Accepted(answer) then DestructureFailure(answer.response.body)
                   else AxiosFailure(answer);
    ClearTokens(st);
    return Exchange(Rejected(failure), st.items, [ToApi(req), ToRefresh(call)],
                    Tail(rest), ExpiredRedirect(pathname));
  }

  /** The number of refresh calls among the requests sent. */
  function RefreshCount(sent: seq<Sent>): nat {
    if sent == [] then 0
    else (if sent[0].ToRefresh? then 1 else 0) + RefreshCount(sent[1..])
  }

  lemma {:induction false} RefreshCountAppend(a: seq<Sent>, b: seq<Sent>)
    ensures RefreshCount(a + b) == RefreshCount(a) + RefreshCount(b)
  {
    if a == [] {
      assert a + b == b;
    } else {
      assert (a + b)[0] == a[0];
      assert (a + b)[1..] == a[1..] + b;
      RefreshCountAppend(a[1..], b);
    }
  }

  /** The request that met the 401 and the refresh call add one refresh. */
  lemma {:induction false} RefreshCountAfterRecovery(req: Request, call: Request, inner: seq<Sent>)
    ensures RefreshCount([ToApi(req), ToRefresh(call)] + inner) == 1 + RefreshCount(inner)
  {
    var s := [ToApi(req), ToRefresh(call)] + inner;
    assert s[1..] == [ToRefresh(call)] + inner;
    assert s[1..][1..] == inner;
  }

  /** A request that already carries the flag is sent once and settles as
      its reply says: no refresh, no change to the store, no redirect. */
  lemma {:induction false} FlaggedRequestNeverRefreshes(base: string, items: map<string, string>,
                                                         config: Request, pathname: string,
                                                         replies: seq<Reply>)
    requires config.retried
    ensures var x := Interception(base, items, config, pathname, replies);
      && x.sent == [ToApi(Authorize(items, config))]
      && x.items == items
      && x.redirect == None
      && x.rest == Tail(replies)
      && x.outcome == (if Accepted(Head(replies)) then Resolved(Head(replies).response)
                       else Rejected(AxiosFailure(Head(replies))))
  {
  }

  /** At most one refresh per request: whatever the replies, the exchange
      holds at most one refresh call and at most three requests, and every
      request sent after the refresh carries the flag. */
  lemma {:induction false} AtMostOneRefresh(base: string, items: map<string, string>, config: Request,
                                            pathname: string, replies: seq<Reply>)
    ensures var x := Interception(base, items, config, pathname, replies);
      && RefreshCount(x.sent) <= 1
      && 1 <= |x.sent| <= 3
      && x.sent[0] == ToApi(Authorize(items, config))
      && forall i :: 0 < i < |x.sent| && x.sent[i].ToApi? ==> x.sent[i].req.retried
  {
    var x := Interception(base, items, config, pathname, replies);
    var req := Authorize(items, config);
    var rest := Tail(replies);
    if !Accepted(Head(replies)) && FirstUnauthorized(Head(replies), req) && Holds(items, RefreshKey) {
      var answer := Head(rest);
      if Accepted(answer) && !Nullish(answer.response.body) {
        var access := ToJsString(Get(answer.response.body, "access"));
        var resend := req.(retried := true,
                           headers := req.headers[AuthorizationHeader := Bearer(access)]);
        FlaggedRequestNeverRefreshes(base, items[AccessKey := access], resend, pathname, Tail(rest));
        var inner := Interception(base, items[AccessKey := access], resend, pathname, Tail(rest));
        var call := RefreshRequest(base, items[RefreshKey]);
        assert x.sent == [ToApi(req), ToRefresh(call)] + inner.sent;
        RefreshCountAfterRecovery(req, call, inner.sent);
        assert inner.sent[1..] == [];
      } else {
        var call := RefreshRequest(base, items[RefreshKey]);
        assert x.sent == [ToApi(req), ToRefresh(call)] + [];
        RefreshCountAfterRecovery(req, call, []);
      }
    } else {
      assert x.sent[1..] == [];
    }
  }

  /** A first 401 with no refresh token in the store: no refresh call, the
      store loses access, refresh and is_staff, the request is rejected, and
      the browser goes to the login page unless it is there already. */
  lemma {:induction false} MissingRefreshToken(base: string, items: map<string, string>, config: Request,
                                               pathname: string, replies: seq<Reply>)
    requires Unauthorized(Head(replies))
    requires !config.retried
    requires !Holds(items, RefreshKey)
    ensures var x := Interception(base, items, config, pathname, replies);
      && RefreshCount(x.sent) == 0
      && x.items == Teardown(items)
      && x.outcome == Rejected(Failure(NoRefreshTokenMessage, None))
      && x.redirect == ExpiredRedirect(pathname)
  {
  }

  /** A first 401, a refresh token, and a refresh that answers with a body:
      only `access` is overwritten (with the returned token, as a string),
      `refresh` stays, and the flagged request is sent exactly once more with
      the new bearer token; its reply is final. */
  lemma {:induction false} RefreshThenResend(base: string, items: map<string, string>, config: Request,
                                             pathname: string, replies: seq<Reply>)
    requires |replies| >= 2
    requires Unauthorized(replies[0])
    requires !config.retried
    requires Holds(items, RefreshKey)
    requires Accepted(replies[1]) && !Nullish(replies[1].response.body)
    ensures var access := ToJsString(Get(replies[1].response.body, "access"));
      var req := Authorize(items, config);
      var resend := req.(retried := true, headers := req.headers[AuthorizationHeader := Bearer(access)]);
      var x := Interception(base, items, config, pathname, replies);
      && x.items == items[AccessKey := access]
      && x.items[RefreshKey] == items[RefreshKey]
      && x.sent == [ToApi(req), ToRefresh(RefreshRequest(base, items[RefreshKey])), ToApi(resend)]
      && resend.headers[AuthorizationHeader] == Bearer(access)
      && x.outcome == (if Accepted(Head(replies[2..])) then Resolved(Head(replies[2..]).response)
                       else Rejected(AxiosFailure(Head(replies[2..]))))
      && x.redirect == None
  {
    var access := ToJsString(Get(replies[1].response.body, "access"));
    var req := Authorize(items, config);
    var resend := req.(retried := true, headers := req.headers[AuthorizationHeader := Bearer(access)]);
    assert Tail(replies) == replies[1..] && Head(replies[1..]) == replies[1];
    assert Tail(replies[1..]) == replies[2..];
    FlaggedRequestNeverRefreshes(base, items[AccessKey := access], resend, pathname, replies[2..]);
    assert Holds(items[AccessKey := access], AccessKey) ==>
      Authorize(items[AccessKey := access], resend) == resend;
  }

  /** A first 401 whose refresh fails (an error reply, no reply, or a body
      that cannot be destructured): access, refresh and is_staff are removed
      but `user` is kept, and the request is rejected with the refresh
      call's error. */
  lemma {:induction false} RefreshFailureTeardown(base: string, items: map<string, string>, config: Request,
                                                  pathname: string, replies: seq<Reply>)
    requires Unauthorized(Head(replies))
    requires !config.retried
    requires Holds(items, RefreshKey)
    requires var answer := Head(Tail(replies)); !(Accepted(answer) && !Nullish(answer.response.body))
    ensures var x := Interception(base, items, config, pathname, replies);
      var answer := Head(Tail(replies));
      && x.items == Teardown(items)
      && AccessKey !in x.items && RefreshKey !in x.items && IsStaffKey !in x.items
      && (UserKey in items ==> UserKey in x.items && x.items[UserKey] == items[UserKey])
      && RefreshCount(x.sent) == 1
      && x.redirect == ExpiredRedirect(pathname)
      && x.outcome == Rejected(if Accepted(answer) then DestructureFailure(answer.response.body)
                               else AxiosFailure(answer))
  {
    var req := Authorize(items, config);
    var x := Interception(base, items, config, pathname, replies);
    assert x == Recovery(base, items, req, pathname, Tail(replies));
    assert x.sent == [ToApi(req), ToRefresh(RefreshRequest(base, items[RefreshKey]))] + [];
    RefreshCountAfterRecovery(req, RefreshRequest(base, items[RefreshKey]), []);
  }

  /** Any reply other than a success or a first 401 rejects the request with
      that reply's error and leaves the store alone. */
  lemma {:induction false} OtherErrorsPassThrough(base: string, items: map<string, string>, config: Request,
                                                  pathname: string, replies: seq<Reply>)
    requires !Accepted(Head(replies))
    requires !FirstUnauthorized(Head(replies), config)
    ensures var x := Interception(base, items, config, pathname, replies);
      && x.outcome == Rejected(AxiosFailure(Head(replies)))
      && x.items == items
      && x.sent == [ToApi(Authorize(items, config))]
      && x.redirect == None
  {
  }

  /** The chain touches nothing in the store but access, refresh and
      is_staff, and it never writes a new refresh token. */
  lemma {:induction false} StoreFrame(base: string, items: map<string, string>, config: Request,
                                      pathname: string, replies: seq<Reply>)
    ensures var x := Interception(base, items, config, pathname, replies);
      && (forall k :: k != AccessKey && k != RefreshKey && k != IsStaffKey ==>
            (k in x.items <==> k in items) && (k in x.items ==> x.items[k] == items[k]))
      && (RefreshKey in x.items ==> RefreshKey in items && x.items[RefreshKey] == items[RefreshKey])
  {
    var req := Authorize(items, config);
    var rest := Tail(replies);
    if !Accepted(Head(replies)) && FirstUnauthorized(Head(replies), req) && Holds(items, RefreshKey) {
      var answer := Head(rest);
      if Accepted(answer) && !Nullish(answer.response.body) {
        var access := ToJsString(Get(answer.response.body, "access"));
        var resend := req.(retried := true,
                           headers := req.headers[AuthorizationHeader := Bearer(access)]);
        FlaggedRequestNeverRefreshes(base, items[AccessKey := access], resend, pathname, Tail(rest));
      }
    }
  }

  /** `apiCall`'s uniform result: it never rejects. */
  datatype ApiResult = ApiOk(data: Json) | ApiErr(error: Json, status: Option<int>)

  /** The fold of `apiCall`: success carries the response body; failure
      carries the response body when it is truthy and `{message}` otherwise,
      with the status of the response if there was one. */
  function Normalise(outcome: Settlement): (r: ApiResult)
    ensures r.ApiOk? <==> outcome.Resolved?
    ensures r.ApiOk? ==> r.data == outcome.response.body
    ensures r.ApiErr? ==> (r.status.Some? <==> outcome.failure.response.Some?)
    ensures r.ApiErr? && outcome.failure.response.Some? ==>
      r.status == Some(outcome.failure.response.value.status)
  {
    match outcome
    case Resolved(resp) => ApiOk(resp.body)
    case Rejected(f) =>
      var data := if f.response.Some? then f.response.value.body else JUndefined;
      var fallback := JObj(map["message" := JStr(if f.message != "" then f.message else "Network error")]);
      ApiErr(Or(data, fallback), if f.response.Some? then Some(f.response.value.status) else None)
  }

  /** A failed call always carries a truthy error value, so callers can read
      `result.error?.x` without a null check on `error`, and it is the
      server's own body whenever that body is truthy. */
  lemma {:induction false} ApiErrorIsTruthy(outcome: Settlement)
    requires outcome.Rejected?
    ensures var r := Normalise(outcome);
      && r.ApiErr? && Truthy(r.error)
      && (outcome.failure.response.Some? && Truthy(outcome.failure.response.value.body) ==>
            r.error == outcome.failure.response.value.body)
  {
  }

  /** `apiCall(method, url, data)`. */
  method ApiCall(st: Storage, base: string, verb: string, url: string, data: Json,
                 pathname: string, replies: seq<Reply>)
    returns (r: ApiResult, x: Exchange)
    modifies st
    ensures x == Interception(base, old(st.items), NewRequest(verb, url, data), pathname, replies)
    ensures st.items == x.items
    ensures r == Normalise(x.outcome)
  {
    x := Dispatch(st, base, NewRequest(verb, url, data), pathname, replies);
    r := Normalise(x.outcome);
  }
}

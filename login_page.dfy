/** The sign-in page (frontend/src/pages/Login.js): its two-field
    validation, the input handler, and the submit handler, which calls the
    authentication API directly rather than through the `useAuth` hook:
    token call, token writes, profile call, profile writes, then a redirect
    chosen by the profile's `est_admin`. Every failure is turned into one
    server-error text.

    The browser's navigation is returned as the path the page asks for. */
module LoginPage {
  import opened Common
  import opened JsonValue
  import opened SessionStore
  import opened AxiosInstance
  import opened AuthApi
  import opened UseAuth

  const UsernameRequired := "Le nom d'utilisateur est obligatoire."
  const PasswordRequired := "Le mot de passe est obligatoire."
  const PasswordTooShort := "Le mot de passe doit contenir au moins 6 caractères."
  const TokenFailedText := "Échec de la connexion"
  const ProfileFailedText := "Impossible de récupérer les informations utilisateur"
  const GenericLoginError := "Une erreur est survenue lors de la connexion."
  const BadCredentialsText := "Nom d'utilisateur ou mot de passe incorrect."
  const AdminTasksPath := "/admin-taches"
  const TasksPath := "/taches"

  datatype Field = Username | Password

  /** The input's `name`, also its key in the error dictionary. */
  function Name(f: Field): string {
    match f
    case Username => "username"
    case Password => "password"
  }

  datatype LoginForm = LoginForm(username: string, password: string)

  const EmptyForm := LoginForm("", "")

  /** The message `validate` records for one field, if any. */
  function FieldError(form: LoginForm, f: Field): Option<string> {
    match f
    case Username => if Blank(form.username) then Some(UsernameRequired) else None
    case Password =>
      if Blank(form.password) then Some(PasswordRequired)
      else if |form.password| < 6 then Some(PasswordTooShort) else None
  }

  /** What the page lets through: a username with a visible character and
      a password of six characters or more, one of them visible. */
  predicate Acceptable(form: LoginForm) {
    !Blank(form.username) && !Blank(form.password) && |form.password| >= 6
  }

  /** The dictionary `validate` builds. */
  function FieldErrors(form: LoginForm): map<string, string> {
    var m: map<string, string> := map[];
    var m := if FieldError(form, Username).Some? then m[Name(Username) := FieldError(form, Username).value] else m;
    if FieldError(form, Password).Some? then m[Name(Password) := FieldError(form, Password).value] else m
  }

  /** The text the `catch` block shows for a caught error's message. */
  function ErrorText(message: string): (t: string)
    ensures t != ""
    ensures Contains(message, "401") || Contains(message, "invalid") ==> t == BadCredentialsText
    ensures !Contains(message, "401") && !Contains(message, "invalid") ==>
      t == (if message != "" then message else GenericLoginError)
  {
    if Contains(message, "401") || Contains(message, "invalid") then BadCredentialsText
    else if message != "" then message
    else GenericLoginError
  }

  /** What the page asks for at render time: a signed-in visitor is sent to
      the task list. */
  function RenderTarget(items: map<string, string>): (t: Option<string>)
    ensures t.Some? <==> IsAuthenticated(items)
    ensures t.Some? ==> t.value == TasksPath
  {
    if IsAuthenticated(items) then Some(TasksPath) else None
  }

  /** The page a complete sign-in goes to. */
  function Destination(profile: Json): (p: string)
    ensures p == AdminTasksPath <==> Truthy(Get(profile, "est_admin"))
    ensures p == TasksPath <==> !Truthy(Get(profile, "est_admin"))
  {
    if Truthy(Get(profile, "est_admin")) then AdminTasksPath else TasksPath
  }

  /** One submission after validation: the store afterwards, the calls
      made, the server-error text (empty when it succeeded) and the page
      asked for. */
  datatype SubmitRun = SubmitRun(
    items: map<string, string>,
    calls: seq<Exchange>,
    serverError: string,
    target: Option<string>)

  /** The part after the token writes: the profile call and what follows. */
  function ProfileStep(base: string, items: map<string, string>, codec: Codec, pathname: string,
                       first: Exchange, replies: seq<Reply>): SubmitRun
  {
    var x := Interception(base, items, CallRequest(CurrentUserCall, JNull), pathname, replies);
    var r := Normalise(x.outcome);
    if r.ApiErr? then
      SubmitRun(x.items, [first, x], ErrorText(ProfileFailedText), None)
    else if Nullish(r.data) then
      // `const { est_admin } = userResult.data` throws before any write
      SubmitRun(x.items, [first, x], ErrorText(DestructureMessage("est_admin", "userResult.data", r.data)), None)
    else
      SubmitRun(x.items[UserKey := codec.stringify(r.data)][IsStaffKey := StaffFlag(r.data)],
                [first, x], "", Some(Destination(r.data)))
  }

  /** `handleSubmit` once the form has passed `validate`. */
  function SubmitSpec(base: string, items: map<string, string>, codec: Codec, pathname: string,
                      form: LoginForm, replies: seq<Reply>): SubmitRun
  {
    var x := Interception(base, items, CallRequest(LoginCall, Credentials(form.username, form.password)),
                          pathname, replies);
    var r := Normalise(x.outcome);
    if r.ApiErr? then
      SubmitRun(x.items, [x], ErrorText(ErrorMessage(Or(Get(r.error, "detail"), JStr(TokenFailedText)))), None)
    else if Nullish(r.data) then
      SubmitRun(x.items, [x], ErrorText(DestructureMessage("access", "loginResult.data", r.data)), None)
    else
      ProfileStep(base, WithTokens(x.items, r.data), codec, pathname, x, x.rest)
  }

  /** The page's state. */
  class LoginPageState {
    var form: LoginForm
    var errors: map<string, string>
    var loading: bool
    var serverError: string

    constructor ()
      ensures form == EmptyForm && errors == map[] && !loading && serverError == ""
    {
      form, errors, loading, serverError := EmptyForm, map[], false, "";
    }

    /** `validate()`. */
    method Validate() returns (ok: bool)
      modifies this
      ensures errors == FieldErrors(form)
      ensures ok <==> Acceptable(form)
      ensures ok <==> errors == map[]
      ensures form == old(form) && loading == old(loading) && serverError == old(serverError)
    {
      var newErrors: map<string, string> := map[];
      if Blank(form.username) {
        newErrors := newErrors["username" := UsernameRequired];
      }
      if Blank(form.password) {
        newErrors := newErrors["password" := PasswordRequired];
      } else if |form.password| < 6 {
        newErrors := newErrors["password" := PasswordTooShort];
      }
      errors := newErrors;
      ok := |errors| == 0;
      if !Blank(form.username) && Blank(form.password) {
        assert "password" in errors;
      }
    }

    /** `handleChange`: the field takes the value, its error (if shown) is
        blanked, and the server error is cleared. */
    method HandleChange(f: Field, value: string)
      modifies this
      ensures form == (if f == Username then old(form).(username := value) else old(form).(password := value))
      ensures Name(f) in old(errors) && old(errors)[Name(f)] != "" ==> errors == old(errors)[Name(f) := ""]
      ensures !(Name(f) in old(errors) && old(errors)[Name(f)] != "") ==> errors == old(errors)
      ensures serverError == "" && loading == old(loading)
    {
      if f == Username {
        form := form.(username := value);
      } else {
        form := form.(password := value);
      }
      if Name(f) in errors && errors[Name(f)] != "" {
        errors := errors[Name(f) := ""];
      }
      if serverError != "" {
        serverError := "";
      }
    }

    /** `handleSubmit`: nothing is called unless the form passes; the
        submission then runs as `SubmitSpec` says and `loading` drops back
        in `finally`. */
    method HandleSubmit(st: Storage, base: string, codec: Codec, pathname: string, replies: seq<Reply>)
      returns (calls: seq<Exchange>, target: Option<string>)
      modifies this, st
      ensures !Acceptable(old(form)) ==>
        calls == [] && target == None && st.items == old(st.items) && serverError == old(serverError)
      ensures Acceptable(old(form)) ==>
        var run := SubmitSpec(base, old(st.items), codec, pathname, old(form), replies);
        && calls == run.calls && target == run.target && st.items == run.items
        && serverError == run.serverError
      ensures form == old(form) && errors == FieldErrors(old(form))
      ensures Acceptable(old(form)) ==> !loading
      ensures !Acceptable(old(form)) ==> loading == old(loading)
    {
      var ok := Validate();
      if !ok {
        calls, target := [], None;
        return;
      }
      calls, target := Send(st, base, codec, pathname, replies);
    }

    /** The `try` block and its `catch`. */
    method Send(st: Storage, base: string, codec: Codec, pathname: string, replies: seq<Reply>)
      returns (calls: seq<Exchange>, target: Option<string>)
      modifies this, st
      ensures var run := SubmitSpec(base, old(st.items), codec, pathname, form, replies);
        && calls == run.calls && target == run.target && st.items == run.items
        && serverError == run.serverError
      ensures form == old(form) && errors == old(errors) && !loading
    {
      loading := true;
      serverError := "";
      target := None;
      var r1, x1 := ApiCall(st, base, Route(LoginCall).verb, Route(LoginCall).path,
                            Credentials(form.username, form.password), pathname, replies);
      calls := [x1];
      if r1.ApiErr? {
        serverError := ErrorText(ErrorMessage(Or(Get(r1.error, "detail"), JStr(TokenFailedText))));
      } else if Nullish(r1.data) {
        serverError := ErrorText(DestructureMessage("access", "loginResult.data", r1.data));
      } else {
        st.Set(AccessKey, ToJsString(Get(r1.data, "access")));
        st.Set(RefreshKey, ToJsString(Get(r1.data, "refresh")));
        calls, target := Profile(st, base, codec, pathname, x1);
      }
      loading := false;
    }

    /** The profile call and the writes and redirect after it. */
    method Profile(st: Storage, base: string, codec: Codec, pathname: string, first: Exchange)
      returns (calls: seq<Exchange>, target: Option<string>)
      modifies this, st
      ensures var run := ProfileStep(base, old(st.items), codec, pathname, first, first.rest);
        && calls == run.calls && target == run.target && st.items == run.items
        && serverError == (if run.serverError == "" then old(serverError) else run.serverError)
      ensures form == old(form) && errors == old(errors) && loading == old(loading)
    {
      target := None;
      var r2, x2 := ApiCall(st, base, Route(CurrentUserCall).verb, Route(CurrentUserCall).path,
                            JNull, pathname, first.rest);
      calls := [first, x2];
      if r2.ApiErr? {
        serverError := ErrorText(ProfileFailedText);
      } else if Nullish(r2.data) {
        serverError := ErrorText(DestructureMessage("est_admin", "userResult.data", r2.data));
      } else {
        st.Set(UserKey, codec.stringify(r2.data));
        st.Set(IsStaffKey, StaffFlag(r2.data));
        target := Some(Destination(r2.data));
      }
    }
  }

  // ----- properties of a submission -----

  /** The two ends of a submission exclude each other: it either asks for a
      page and shows no error, or shows a non-empty error and stays. A page
      is asked for only after both calls succeeded, with the profile stored
      under `user`, its role flag under `is_staff`, and the page chosen by
      the role. */
  lemma {:induction false} SubmitOutcomes(base: string, items: map<string, string>, codec: Codec,
                                          pathname: string, form: LoginForm, replies: seq<Reply>)
    ensures var run := SubmitSpec(base, items, codec, pathname, form, replies);
      && 1 <= |run.calls| <= 2
      && (run.target.None? <==> run.serverError != "")
      && (run.target.Some? ==>
            && |run.calls| == 2
            && run.calls[0].outcome.Resolved? && run.calls[1].outcome.Resolved?
            && var profile := run.calls[1].outcome.response.body;
            && run.items[UserKey] == codec.stringify(profile)
            && run.items[IsStaffKey] == StaffFlag(profile)
            && run.target == Some(Destination(profile)))
  {
    var x := Interception(base, items, CallRequest(LoginCall, Credentials(form.username, form.password)),
                          pathname, replies);
    var r := Normalise(x.outcome);
    if r.ApiOk? && !Nullish(r.data) {
      var y := Interception(base, WithTokens(x.items, r.data), CallRequest(CurrentUserCall, JNull),
                            pathname, x.rest);
      var r2 := Normalise(y.outcome);
      if r2.ApiOk? && !Nullish(r2.data) {
        assert y.outcome.response.body == r2.data;
      }
    }
  }

  /** A wrong password with no refresh token stored: the 401 makes the
      interceptor clear the tokens and reject with its own error, which has
      no `detail`, so the page shows its generic token-failure text and not
      the "incorrect credentials" text. */
  lemma {:induction false} WrongPasswordShowsTokenFailure(base: string, items: map<string, string>,
      codec: Codec, pathname: string, form: LoginForm, replies: seq<Reply>)
    requires Unauthorized(Head(replies)) && !Holds(items, RefreshKey)
    ensures var run := SubmitSpec(base, items, codec, pathname, form, replies);
      && run.serverError == TokenFailedText
      && run.items == Teardown(items)
      && |run.calls| == 1 && run.calls[0].redirect == ExpiredRedirect(pathname)
      && run.target == None
  {
    var config := CallRequest(LoginCall, Credentials(form.username, form.password));
    MissingRefreshToken(base, items, config, pathname, replies);
    var x := Interception(base, items, config, pathname, replies);
    var r := Normalise(x.outcome);
    assert r.error == JObj(map["message" := JStr(NoRefreshTokenMessage)]);
    assert Get(r.error, "detail") == JUndefined;
    PlainMessageShown(TokenFailedText);
  }

  /** A rejected token call whose body carries a `detail` text shows that
      text as it is, unless it mentions "401" or "invalid"; the store is
      left untouched when the answer was not a 401. */
  lemma {:induction false} RejectedDetailShown(base: string, items: map<string, string>,
      codec: Codec, pathname: string, form: LoginForm, replies: seq<Reply>,
      fields: map<string, Json>, detail: string)
    requires !Accepted(Head(replies)) && !Unauthorized(Head(replies))
    requires Head(replies).Answer? && Head(replies).response.body == JObj(fields)
    requires "detail" in fields && fields["detail"] == JStr(detail) && detail != ""
    ensures var run := SubmitSpec(base, items, codec, pathname, form, replies);
      && run.serverError == (if Contains(detail, "401") || Contains(detail, "invalid")
                             then BadCredentialsText else detail)
      && run.items == items && |run.calls| == 1 && run.target == None
  {
    var config := CallRequest(LoginCall, Credentials(form.username, form.password));
    OtherErrorsPassThrough(base, items, config, pathname, replies);
  }

  /** A profile read that answers `null`: the page fails on destructuring
      before writing `user` or `is_staff`, so only the token writes remain,
      and the TypeError's message is what the error mapping reads (it shows
      it as it is, by `TypeErrorShown`). */
  lemma {:induction false} NullProfileWritesNoUser(base: string, items: map<string, string>,
      codec: Codec, pathname: string, form: LoginForm, replies: seq<Reply>)
    requires |replies| >= 2 && Accepted(replies[0]) && !Nullish(replies[0].response.body)
    requires Accepted(replies[1]) && replies[1].response.body == JNull
    ensures var run := SubmitSpec(base, items, codec, pathname, form, replies);
      && run.items == WithTokens(items, replies[0].response.body)
      && (UserKey in run.items <==> UserKey in items)
      && (IsStaffKey in run.items <==> IsStaffKey in items)
      && run.serverError == ErrorText(DestructureMessage("est_admin", "userResult.data", JNull))
      && run.target == None
  {
    var config := CallRequest(LoginCall, Credentials(form.username, form.password));
    var x := Interception(base, items, config, pathname, replies);
    assert x.outcome == Resolved(replies[0].response) && x.items == items && x.rest == replies[1..];
    var w := WithTokens(items, replies[0].response.body);
    var y := Interception(base, w, CallRequest(CurrentUserCall, JNull), pathname, x.rest);
    assert y.outcome == Resolved(replies[1].response) && y.items == w;
  }

  /** A message without a '4' or a 'v' cannot mention "401" or "invalid",
      so a non-empty one is shown as it is. */
  lemma {:induction false} PlainMessageShown(m: string)
    requires m != "" && '4' !in m && 'v' !in m
    ensures ErrorText(m) == m
  {
    ContainsNeedsChar(m, "401", '4');
    ContainsNeedsChar(m, "invalid", 'v');
  }

  /** The TypeError of destructuring a null or undefined value is shown as
      it is, whatever property and expression it names (within those
      letters). */
  lemma {:induction false} TypeErrorShown(prop: string, expr: string, v: Json)
    requires '4' !in prop + expr && 'v' !in prop + expr
    ensures ErrorText(DestructureMessage(prop, expr, v)) == DestructureMessage(prop, expr, v)
  {
    var a, b, c := "Cannot destructure property '", "' of '", "' as it is ";
    var tail := if v == JNull then "null." else "undefined.";
    FixedPartsPlain(tail);
    var m := a + prop + b + expr + c + tail;
    assert m == DestructureMessage(prop, expr, v);
    assert m == a + (prop + b) + (expr + (c + tail));
    PlainMessageShown(m);
  }

  /** The fixed words of that message hold neither a '4' nor a 'v'. */
  lemma FixedPartsPlain(tail: string)
    requires tail == "null." || tail == "undefined."
    ensures '4' !in "Cannot destructure property '" && 'v' !in "Cannot destructure property '"
    ensures '4' !in "' of '" + "' as it is " + tail && 'v' !in "' of '" + "' as it is " + tail
  {
  }
}

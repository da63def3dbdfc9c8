# task-flow-app in Dafny

A model of the logic of task-flow-app, a small task-list web application.
It has a React client and a Django REST backend, and the model covers both halves.

On the client side:
- **Session protocol.** The session store is `localStorage`, holding `access`, `refresh`, `user` and `is_staff`.
- **Axios interceptors.** The request interceptor attaches the bearer token of section 2.1 of RFC 6750. The response interceptor refreshes once on a 401, using the `_retry` flag, and tears the session down when the refresh fails.
- **`apiCall`.** It normalises every outcome into a result that never throws.
- **Authentication.** The authentication API and the `useAuth` hook handle signing in, which writes the tokens, reads the profile, then writes the profile.
- **Task handlers.** The `useTasks` hook and the task page (`Taches`) hold the list handlers.
- **Forms and guards.** The registration, login and contact forms have validators and submit handlers, and there are two route guards.

On the server side:
- the task and contact serializers;
- the task model's `clean`/`save`;
- the task view set (visibility, creation, status actions) and the contact view;
- the consent gate of registration and the profile endpoint.

### How the model is built

Each source file becomes one module:

| module | source |
|---|---|
| `AxiosInstance` | `frontend/src/axiosInstance.js` |
| `AuthApi` | `frontend/src/api/auth.js` |
| `UseAuth` | `frontend/src/hooks/useAuth.js` |
| `UseTasks` | `frontend/src/hooks/useTasks.js` |
| `Taches` | `frontend/src/pages/Taches.js` |
| `RegisterPage` | `frontend/src/pages/Register.js` |
| `LoginPage` | `frontend/src/pages/Login.js` |
| `ContactPage` | `frontend/src/pages/contact.js` |
| `AppRoutes` | `frontend/src/App.js` |
| `Serializers` | `backend/todolist_app/serializers.py` |
| `TaskModel` | `backend/todolist_app/models.py` |
| `TaskViews` | `backend/todolist_app/views.py` |
| `UserViews` | `backend/users_app/views.py` |

Three shared modules sit under them:
- `Common`: Option, whitespace trimming, substring search, the loose e-mail pattern, decimal printing.
- `JsonValue`: JSON values with JavaScript and Python truthiness, optional chaining, `String(v)`, and the messages of thrown errors.
- `SessionStore`: `localStorage` as a class over a `map<string, string>`.

What changes state in the source is a class whose methods update fields in place:
- the store;
- the React state of each hook and page;
- a model instance;
- the task table.

Each such method is proved equal to a specification function of the old state. The properties are proved about those functions.

The network and the browser are not modelled directly:
- **Network replies** are an input sequence (`seq<Reply>`, or `seq<ApiResult>` for pages that only see `apiCall`'s results). Each request consumes the next reply, and a request left without a reply is axios's timeout error.
- **Navigation** is returned as a target path instead of being performed.
- **JSON text codec.** `JSON.stringify`/`JSON.parse` are a `Codec` parameter.
- **E-mail validation.** Django's e-mail validator is a boolean parameter.
- **Mail sending.** `send_mail`'s failure is an optional error message.

## Model

| member | source | states |
|---|---|---|
| Common.TrimStart | backend/todolist_app/serializers.py:87 | the result is a suffix of the input, everything dropped is whitespace of the given language, and it starts with a character visible in that language or is empty |
| Common.TrimEnd | backend/todolist_app/serializers.py:87 | the result is a prefix of the input, everything dropped is whitespace of the given language, and it ends with a character visible in that language or is empty |
| Common.Trim | backend/todolist_app/serializers.py:87 | `strip()` (Python) or `trim()` (JavaScript), each with its own whitespace set: no whitespace of that language at either end, never longer than the input, and empty exactly when the input is all whitespace in that language |
| Common.BlankIsEmptyTrim | frontend/src/pages/Register.js:49 | `!s.trim()` holds exactly when the text is whitespace only |
| Common.TrimOfTrimmed | backend/todolist_app/serializers.py:87 | text with visible characters at both ends is left unchanged by trimming |
| Common.TrimIdempotent | backend/todolist_app/serializers.py:87 | trimming twice is trimming once |
| Common.TrimPadded | backend/todolist_app/models.py:76-77 | whitespace around a text with visible ends is exactly what trimming removes |
| Common.TrimSpan | backend/todolist_app/serializers.py:126-149 | everything between two visible characters survives trimming, so the trimmed length is at least their distance plus one |
| Common.SeparatorsStrippedOnlyByPython | backend/todolist_app/serializers.py:87 | the two whitespace sets differ: around any text whose ends are visible, JavaScript's `trim` keeps a U+001C..U+001F separator at either end and Python's `strip` removes it |
| Common.ContainsNeedsChar | frontend/src/pages/Login.js:94 | a text lacking a character cannot contain a substring that has it |
| Common.EmailShapeMatches | frontend/src/pages/Register.js:68 | every `local@domain.tld` whose three parts are non-empty and blank-free matches `\S+@\S+\.\S+` |
| Common.EmailMatchIsNotBlank | frontend/src/pages/Register.js:66-70 | a text the pattern accepts holds an `@` and is not blank, so the "required" branch never hides a match |
| Common.LooseEmailExamples | frontend/src/pages/Register.js:68 | the unanchored pattern accepts "a@@b.c" and " a@b.c " and refuses "user@host" |
| Common.NatToString | backend/todolist_app/serializers.py:126-149 | the decimal text of a length bound in the field messages is non-empty, all digits, and reads back as that number |
| JsonValue.TruthinessAgreement | backend/users_app/views.py:17 | Python-truthy values are JavaScript-truthy; the two differ exactly on an empty list and an empty dict |
| JsonValue.Or | frontend/src/hooks/useAuth.js:17 | `a \|\| b` is one of its operands and is truthy exactly when one of them is |
| JsonValue.CaughtMessage | frontend/src/hooks/useAuth.js:88-91 | the message read after `throw new Error(v)` is never empty and is the error's own message whenever that is non-empty |
| JsonValue.ObjectErrorMessage | frontend/src/hooks/useAuth.js:88 | an object thrown through `new Error` reads as "[object Object]" |
| JsonValue.ToJsString | frontend/src/hooks/useAuth.js:32-34 | defines `String(v)`, which `localStorage.setItem` stores: `undefined`, `null`, booleans, decimal numbers, the string itself, arrays joined by commas and "[object Object]" |
| SessionStore.Lookup | frontend/src/api/auth.js:31 | `getItem` yields a value exactly when the key is present, and that value is the stored one |
| SessionStore.Storage.Get | frontend/src/axiosInstance.js:26 | reads the entry without changing the store |
| SessionStore.Storage.Set | frontend/src/axiosInstance.js:81 | the store gains or overwrites exactly that key |
| SessionStore.Storage.Remove | frontend/src/axiosInstance.js:91 | the store loses exactly that key |
| AxiosInstance.BaseUrl | frontend/src/axiosInstance.js:9 | the environment's address when it is set and non-empty, the deployed fallback otherwise; never empty |
| AxiosInstance.StripApiSuffix | frontend/src/axiosInstance.js:71 | removes one trailing "/api/" or else one trailing "/api", and leaves any other address unchanged |
| AxiosInstance.RefreshUrl | frontend/src/axiosInstance.js:71 | the refresh address always ends with "/api/token/refresh/" |
| AxiosInstance.RefreshUrlOfApiBase | frontend/src/axiosInstance.js:71 | a root, the root + "/api" and the root + "/api/" all refresh at the root + "/api/token/refresh/" |
| AxiosInstance.FallbackRefreshUrl | frontend/src/axiosInstance.js:71 | the fallback address refreshes at its own "/api/token/refresh/" |
| AxiosInstance.Authorize | frontend/src/axiosInstance.js:26-29 | with a non-empty `access` entry the Authorization header becomes "Bearer " + token, and without one the headers are untouched; nothing else in the request changes |
| AxiosInstance.ExpiredRedirect | frontend/src/axiosInstance.js:96-98 | the browser is sent to "/login?session=expired" exactly when it is not on "/login" |
| AxiosInstance.Interception | frontend/src/axiosInstance.js:24-106 | defines the whole exchange of one request: the bearer header, one send, and on a first 401 the refresh call, the resend with the new token or the teardown with its redirect; any other error rejected as it came |
| AxiosInstance.Teardown | frontend/src/axiosInstance.js:91-93 | defines the store after a failed refresh: the old store without `access`, `refresh` and `is_staff` |
| AxiosInstance.Dispatch | frontend/src/axiosInstance.js:24-106 | running both interceptors on the live store gives the exchange the specification function describes, and leaves the store it names |
| AxiosInstance.ClearTokens | frontend/src/axiosInstance.js:91-93 | the store loses `access`, `refresh` and `is_staff`, and nothing else changes |
| AxiosInstance.Recover | frontend/src/axiosInstance.js:61-101 | the 401 branch on the live store matches its specification function |
| AxiosInstance.FlaggedRequestNeverRefreshes | frontend/src/axiosInstance.js:104 | a request already carrying `_retry` is sent once and settles as its reply says, with no store change and no redirect |
| AxiosInstance.AtMostOneRefresh | frontend/src/axiosInstance.js:61-62 | whatever the replies, one request causes at most one refresh call and at most three sends, and every resend carries the flag |
| AxiosInstance.MissingRefreshToken | frontend/src/axiosInstance.js:65-100 | a first 401 without a refresh token makes no refresh call, removes access/refresh/is_staff, rejects with "No refresh token available" and redirects unless on /login |
| AxiosInstance.RefreshThenResend | frontend/src/axiosInstance.js:80-85 | on refresh success only `access` is overwritten, `refresh` stays, and the original request is resent once with "Bearer " + the new token; that reply is final |
| AxiosInstance.RefreshFailureTeardown | frontend/src/axiosInstance.js:87-100 | on refresh failure access/refresh/is_staff are removed while `user` is kept, one refresh was made, and the request rejects with the refresh error |
| AxiosInstance.OtherErrorsPassThrough | frontend/src/axiosInstance.js:104 | any error other than a first 401 is rejected unchanged after one send, with the store untouched and no redirect |
| AxiosInstance.StoreFrame | frontend/src/axiosInstance.js:61-101 | the chain changes no key but access, refresh and is_staff, and never writes a new refresh token |
| AxiosInstance.Normalise | frontend/src/axiosInstance.js:120-133 | success exactly for a resolved request, carrying its body; a failure has a status exactly when the server answered |
| AxiosInstance.ApiErrorIsTruthy | frontend/src/axiosInstance.js:131 | a failure's error is always truthy, and it is the server's body whenever that body is truthy |
| AxiosInstance.ApiCall | frontend/src/axiosInstance.js:109-135 | `apiCall` never rejects: its result is the normalised outcome of the interceptor exchange |
| AuthApi.CallRequest | frontend/src/api/auth.js:5-14 | each authentication call sends its fixed method and path with the given body and no retry flag |
| AuthApi.RoutesDistinct | frontend/src/api/auth.js:5-14 | no two calls share a route, and only the current-user read is a GET |
| AuthApi.StoredUser | frontend/src/api/auth.js:30-33 | null when `user` is missing or empty, the parsed entry otherwise |
| AuthApi.Logout | frontend/src/api/auth.js:22-27 | the store loses exactly the four session keys |
| AuthApi.LogoutClearsSession | frontend/src/api/auth.js:17-33 | after logout nobody is authenticated, no user is stored, and every other entry is kept with its value |
| AuthApi.LogoutIdempotent | frontend/src/api/auth.js:22-27 | a second logout leaves the store as the first left it |
| AuthApi.TeardownKeepsUser | frontend/src/axiosInstance.js:91-93 | the refresh-failure teardown equals logout exactly when no `user` entry exists, and it keeps that entry when there is one |
| UseAuth.IsAdmin | frontend/src/hooks/useAuth.js:15-18 | truthy exactly when the stored user's `est_admin` is, and false when no user is stored |
| UseAuth.StaffFlag | frontend/src/hooks/useAuth.js:41 | defines the text stored under `is_staff`: `String(est_admin \|\| false)` |
| UseAuth.WithTokens | frontend/src/hooks/useAuth.js:32-34 | defines the store after the token reply: `access` and `refresh` overwritten with `String` of the reply's fields |
| UseAuth.LoginSpec | frontend/src/hooks/useAuth.js:21-63 | defines sign-in: the token call, the token writes, the profile call, the profile writes, and the result and error of each outcome |
| UseAuth.RegisterSpec | frontend/src/hooks/useAuth.js:74-100 | defines registration: one call, success with its data or failure with the caught message, no store write |
| UseAuth.LoadUserSpec | frontend/src/hooks/useAuth.js:103-125 | defines the mount effect: nothing without a token, otherwise the profile read, storing the profile on success and logging out to /login on failure |
| UseAuth.AuthHook.constructor | frontend/src/hooks/useAuth.js:5-7 | no user, loading, no error |
| UseAuth.AuthHook.Login | frontend/src/hooks/useAuth.js:21-63 | the store, result and exchanges match the sign-in specification; the error is set exactly on failure; loading ends false |
| UseAuth.AuthHook.Register | frontend/src/hooks/useAuth.js:74-100 | the result matches the registration specification; the user is unchanged and loading ends false |
| UseAuth.AuthHook.Logout | frontend/src/hooks/useAuth.js:66-71 | the store is logged out, user and error are null, and the target is "/login" |
| UseAuth.AuthHook.LoadUser | frontend/src/hooks/useAuth.js:103-125 | the mount effect matches its specification; loading ends false |
| UseAuth.LoginTokenFailureWritesNothing | frontend/src/hooks/useAuth.js:26-30 | a failed token call (not a 401) makes one call, changes nothing, and reports a non-empty error |
| UseAuth.LoginStopsOnTokenFailure | frontend/src/hooks/useAuth.js:26-59 | whatever the replies, a rejected token call ends the sequence after one call and writes nothing of its own |
| UseAuth.ProfileFetchCarriesNewToken | frontend/src/hooks/useAuth.js:32-37 | the profile read is the second call and carries "Bearer " + the token just stored, so the writes come first |
| UseAuth.ProfileFailureKeepsTokens | frontend/src/hooks/useAuth.js:37-51 | a failed profile read keeps the two tokens, writes no user or flag, and fails with "Failed to get user information" |
| UseAuth.LoginSuccessStoresProfile | frontend/src/hooks/useAuth.js:38-48 | a complete sign-in stores the serialised profile under `user` and `est_admin \|\| false` under `is_staff` |
| UseAuth.AdminAfterLogin | frontend/src/hooks/useAuth.js:38-42 | after a complete sign-in `isAdmin()` is the profile's `est_admin \|\| false`, for a codec that reads back what it wrote |
| UseAuth.MissingTokensStoredAsUndefined | frontend/src/hooks/useAuth.js:32-34 | a token reply of `{}` stores the text "undefined" under both keys, which counts as signed in |
| UseAuth.RegisterWritesNothing | frontend/src/hooks/useAuth.js:79-86 | registration succeeds exactly when the call resolves, and writes nothing of its own |
| UseAuth.RegisterObjectError | frontend/src/hooks/useAuth.js:88 | a validation error returned as an object reaches the caller as "[object Object]" |
| UseAuth.LoadUserOutcomes | frontend/src/hooks/useAuth.js:104-121 | without a token nothing is called; a failed profile read logs out and goes to /login; a profile read stores the profile |
| UseTasks.TasksHook.constructor | frontend/src/hooks/useTasks.js:8-15 | empty list, not loading, no error, empty pagination |
| UseTasks.FetchStep | frontend/src/hooks/useTasks.js:20-46 | defines a list read: on success `results` (or []) and the pagination; on failure the error; loading false |
| UseTasks.AfterChange | frontend/src/hooks/useTasks.js:63-80 | defines the tail of a change: a re-read of the first page on success, the server's message as the error on failure, loading false |
| UseTasks.CreateStep | frontend/src/hooks/useTasks.js:51-81 | defines create: a blank text sets the error without a call; otherwise the POST of the text, then the tail |
| UseTasks.UpdateStep | frontend/src/hooks/useTasks.js:86-111 | defines update: the PUT of the data to the task's address, then the tail |
| UseTasks.DeleteStep | frontend/src/hooks/useTasks.js:116-140 | defines delete: the DELETE of the task's address, then the tail |
| UseTasks.ToggleStep | frontend/src/hooks/useTasks.js:145-171 | defines toggle: the pending or complete action chosen by `done`, then the tail |
| UseTasks.TasksHook.FetchTasks | frontend/src/hooks/useTasks.js:20-46 | the state, result and calls match the fetch specification |
| UseTasks.TasksHook.Finish | frontend/src/hooks/useTasks.js:63-80 | the common tail of a change (refetch on success, error otherwise, loading reset) matches its specification |
| UseTasks.TasksHook.CreateTask | frontend/src/hooks/useTasks.js:51-81 | matches the create specification |
| UseTasks.TasksHook.UpdateTask | frontend/src/hooks/useTasks.js:86-111 | matches the update specification |
| UseTasks.TasksHook.DeleteTask | frontend/src/hooks/useTasks.js:116-140 | matches the delete specification |
| UseTasks.TasksHook.ToggleTaskCompletion | frontend/src/hooks/useTasks.js:145-171 | matches the toggle specification |
| UseTasks.CreateBlankMakesNoCall | frontend/src/hooks/useTasks.js:52-55 | whitespace-only text fails with "Task cannot be empty", makes no call, and sets only the error |
| UseTasks.FetchSuccessReplacesList | frontend/src/hooks/useTasks.js:27-34 | a successful read installs `results` exactly when it is present (else []), copies `next` and `previous`, copies a truthy `count` and uses 0 otherwise; hasNext/hasPrevious follow the links |
| UseTasks.FetchFailureKeepsList | frontend/src/hooks/useTasks.js:37-42 | a failed read keeps list and pagination, records a non-empty error, and fails |
| UseTasks.ChangeClearsLoading | frontend/src/hooks/useTasks.js:78-80 | a change ends with loading false whatever happened |
| UseTasks.LoadingClearedAfterActions | frontend/src/hooks/useTasks.js:43-169 | every action ends with loading false, except a refused blank create, which leaves it as it was |
| UseTasks.ToggleChoosesTransition | frontend/src/hooks/useTasks.js:150-152 | a done task is marked pending and any other task complete, and that is the first call |
| UseTasks.ChangeRefetchesList | frontend/src/hooks/useTasks.js:63-72 | a change succeeds exactly when its call does, and then re-reads the first page; a failed change keeps the list |
| UseTasks.SuccessWithFailedRefetch | frontend/src/hooks/useTasks.js:63-69 | a create whose re-read fails still reports success while the error shows "Failed to fetch tasks" |
| UseTasks.CreateShowsFieldMessage | frontend/src/hooks/useTasks.js:72 | the server's first message for `task` becomes the error |
| Taches.StartEditing | frontend/src/pages/Taches.js:96-99 | the task becomes the one in edit and its text the edit text; nothing else changes |
| Taches.CancelEditing | frontend/src/pages/Taches.js:102-105 | no task in edit and an empty edit text; nothing else changes |
| Taches.FetchEffect | frontend/src/pages/Taches.js:24-42 | defines the list read: nothing without a token; otherwise the read, and the list, pagination and error it leaves |
| Taches.AddEffect | frontend/src/pages/Taches.js:50-74 | defines add: the blank-text error, or the POST and what its outcome leaves |
| Taches.DeleteEffect | frontend/src/pages/Taches.js:77-93 | defines delete: nothing unless confirmed, otherwise the DELETE, then a re-read or the error |
| Taches.SaveEditEffect | frontend/src/pages/Taches.js:108-128 | defines save: nothing without edit text and a task in edit, otherwise the PUT, then leaving edit mode and a re-read, or the error |
| Taches.ToggleEffect | frontend/src/pages/Taches.js:131-145 | defines toggle: the action chosen by `done`, then a re-read or the error |
| Taches.TachesPage.constructor | frontend/src/pages/Taches.js:8-19 | the page's initial state |
| Taches.TachesPage.FetchTasks | frontend/src/pages/Taches.js:24-42 | matches the fetch specification |
| Taches.TachesPage.AddTask | frontend/src/pages/Taches.js:50-74 | matches the add specification |
| Taches.TachesPage.Created | frontend/src/pages/Taches.js:62-73 | the part after the create call matches its specification |
| Taches.TachesPage.DeleteTask | frontend/src/pages/Taches.js:77-93 | matches the delete specification |
| Taches.TachesPage.StartEditingTask | frontend/src/pages/Taches.js:96-99 | the state becomes `StartEditing` of the old state |
| Taches.TachesPage.CancelEditingTask | frontend/src/pages/Taches.js:102-105 | the state becomes `CancelEditing` of the old state |
| Taches.TachesPage.SaveEdit | frontend/src/pages/Taches.js:108-128 | matches the save specification |
| Taches.TachesPage.ToggleDone | frontend/src/pages/Taches.js:131-145 | matches the toggle specification |
| Taches.FetchNeedsToken | frontend/src/pages/Taches.js:21-25 | the list is read exactly when an access token is stored; without one nothing changes |
| Taches.FetchShowsArrayOnly | frontend/src/pages/Taches.js:32-36 | `results` is shown only when it is an array (else []); the page links are copied and a missing count is 0 |
| Taches.AddBlankMakesNoCall | frontend/src/pages/Taches.js:53-56 | a blank new task only sets the error |
| Taches.AddSuccessClearsInput | frontend/src/pages/Taches.js:64-68 | a successful add clears the input, announces itself and re-reads the list |
| Taches.SaveEditNeedsTextAndTask | frontend/src/pages/Taches.js:109 | with a blank edit text or a falsy task in edit, saving calls nothing and changes nothing |
| Taches.EditRoundTrip | frontend/src/pages/Taches.js:114-127 | saving a task just put in edit sends its own text and unchanged `done`; success leaves edit mode, failure stays in it |
| Taches.ToggleChoosesTransition | frontend/src/pages/Taches.js:135-137 | a done task is marked pending and any other task complete |
| Taches.DeleteNeedsConfirmation | frontend/src/pages/Taches.js:78-83 | an unconfirmed delete changes nothing; a confirmed one calls delete first |
| RegisterPage.ErrorText | frontend/src/pages/Register.js:145-153 | "username already exists" maps to the taken-name text, "email already exists" to the used-email text, anything else shows as it is; never empty |
| RegisterPage.FieldErrors | frontend/src/pages/Register.js:46-89 | defines the dictionary of field messages the validator builds, rule by rule |
| RegisterPage.Acceptable | frontend/src/pages/Register.js:45-92 | defines, field by field and independently of the dictionary, the forms the page accepts |
| RegisterPage.Payload | frontend/src/pages/Register.js:107-114 | defines the body sent: four trimmed texts, the password as typed and the consent |
| RegisterPage.RegisterPageState.constructor | frontend/src/pages/Register.js:11-24 | empty form, no errors, not loading, no messages |
| RegisterPage.RegisterPageState.Validate | frontend/src/pages/Register.js:45-93 | the dictionary built field by field is the form's errors, and validity holds exactly when it is empty, exactly when the form is acceptable |
| RegisterPage.RegisterPageState.HandleChange | frontend/src/pages/Register.js:27-42 | the field takes the value; only its own shown error is cleared; both server messages are cleared |
| RegisterPage.RegisterPageState.HandleSubmit | frontend/src/pages/Register.js:96-160 | the errors become those of the old form; a call is made exactly for an acceptable form, with the trimmed payload, and then loading ends false; success resets the form and goes to /login; failure shows the mapped error; without a call nothing else changes, there is no target and loading is as it was |
| RegisterPage.RegisterPageState.Send | frontend/src/pages/Register.js:101-159 | the state after the call, on success and on failure, and loading false |
| RegisterPage.Check | frontend/src/pages/Register.js:48-89 | one field's test records its message, if any, in the dictionary |
| RegisterPage.SetField | frontend/src/pages/Register.js:29-32 | the checkbox takes `checked`, a text field its value |
| RegisterPage.RecordEmpty | frontend/src/pages/Register.js:92 | a dictionary with a recorded message is not empty |
| RegisterPage.ValidateAcceptable | frontend/src/pages/Register.js:45-92 | no errors exactly when no field has an error, exactly when the independent reading of the rules accepts the form |
| RegisterPage.FieldErrorsKeys | frontend/src/pages/Register.js:46-89 | a field's name is a key exactly when that field has an error |
| RegisterPage.PayloadIsTrimmed | frontend/src/pages/Register.js:107-114 | the four texts are trimmed, the password is verbatim, consent is kept |
| RegisterPage.UntrimmedUsernameLength | frontend/src/pages/Register.js:49-53 | "  x" passes the length rule although one character is sent |
| RegisterPage.ObjectErrorShownVerbatim | frontend/src/pages/Register.js:139 | an error object from the server is shown as "[object Object]" |
| RegisterPage.UsernameTakenMapped | frontend/src/pages/Register.js:147-148 | Django's taken-username message shows the page's own text |
| LoginPage.ErrorText | frontend/src/pages/Login.js:92-98 | a message containing "401" or "invalid" maps to the wrong-credentials text, any other shows as it is; never empty |
| LoginPage.RenderTarget | frontend/src/pages/Login.js:108-110 | a signed-in visitor is sent to /taches, anyone else sees the form |
| LoginPage.Destination | frontend/src/pages/Login.js:84 | /admin-taches exactly when `est_admin` is truthy, /taches otherwise |
| LoginPage.FieldErrors | frontend/src/pages/Login.js:34-49 | defines the dictionary of field messages the validator builds |
| LoginPage.Acceptable | frontend/src/pages/Login.js:34-49 | defines the forms the page accepts |
| LoginPage.SubmitSpec | frontend/src/pages/Login.js:57-104 | defines the submit chain: the token call, the profile step, and the message or destination of each outcome |
| LoginPage.ProfileStep | frontend/src/pages/Login.js:76-87 | defines the part after the tokens: the profile call, the `user` and `is_staff` writes and the role's destination |
| LoginPage.LoginPageState.constructor | frontend/src/pages/Login.js:11-17 | empty form, no errors, not loading, no server error |
| LoginPage.LoginPageState.Validate | frontend/src/pages/Login.js:34-49 | the dictionary is the form's errors, and validity holds exactly when it is empty, exactly when the form is acceptable |
| LoginPage.LoginPageState.HandleChange | frontend/src/pages/Login.js:20-31 | the field takes the value; only its shown error is cleared; the server error is cleared |
| LoginPage.LoginPageState.HandleSubmit | frontend/src/pages/Login.js:52-105 | an invalid form calls nothing, changes no store and leaves loading as it was; a valid one runs the submit specification and ends with loading false |
| LoginPage.LoginPageState.Send | frontend/src/pages/Login.js:57-104 | the calls, store, target and message match the submit specification; loading ends false |
| LoginPage.LoginPageState.Profile | frontend/src/pages/Login.js:76-87 | the profile call and the writes after it match their specification |
| LoginPage.SubmitOutcomes | frontend/src/pages/Login.js:61-87 | either a message or a redirect; a redirect follows two resolved calls, with the profile and its flag stored and the role's destination |
| LoginPage.WrongPasswordShowsTokenFailure | frontend/src/pages/Login.js:67-68 | a 401 on the token call with no refresh token stored shows "Échec de la connexion", not the wrong-credentials text |
| LoginPage.RejectedDetailShown | frontend/src/pages/Login.js:68 | a rejected token call's `detail` text is shown through the mapping, and nothing is stored |
| LoginPage.NullProfileWritesNoUser | frontend/src/pages/Login.js:79-81 | a `null` profile fails on destructuring after the tokens are stored, with no user written |
| LoginPage.PlainMessageShown | frontend/src/pages/Login.js:94-97 | a message without a '4' or a 'v' is shown as it is |
| LoginPage.TypeErrorShown | frontend/src/pages/Login.js:92-98 | a destructuring TypeError is shown verbatim |
| ContactPage.MessageAfter | frontend/src/pages/contact.js:62-77 | the message is always truthy: the server's `success` text or the fallback after a delivery, otherwise the server's `error` or the network text |
| ContactPage.FieldErrors | frontend/src/pages/contact.js:30-41 | defines the dictionary of field messages the validator builds |
| ContactPage.Acceptable | frontend/src/pages/contact.js:28-44 | defines, field by field, the forms the page accepts |
| ContactPage.Payload | frontend/src/pages/contact.js:55-60 | defines the body posted: the joined name, the e-mail as typed, the composed subject and the message with the phone line |
| ContactPage.ContactPageState.constructor | frontend/src/pages/contact.js:5-16 | empty form, no errors, empty message, not loading |
| ContactPage.ContactPageState.Validate | frontend/src/pages/contact.js:28-45 | the dictionary is the form's errors, and validity holds exactly when it is empty, exactly when the form is acceptable |
| ContactPage.ContactPageState.HandleChange | frontend/src/pages/contact.js:18-26 | the field takes its value; its error entry is set to "" whatever it was; the message is cleared |
| ContactPage.ContactPageState.HandleSubmit | frontend/src/pages/contact.js:47-81 | a post is made exactly for an acceptable form, and then loading ends false; without a post loading is as it was; a delivery resets the form; the message follows the outcome |
| ContactPage.ContactPageState.Send | frontend/src/pages/contact.js:51-80 | the post, message, form reset and loading after it |
| ContactPage.Check | frontend/src/pages/contact.js:30-41 | one field's test records its message, if any |
| ContactPage.SetField | frontend/src/pages/contact.js:20-23 | the checkbox takes `checked`, a text field its value |
| ContactPage.RecordEmpty | frontend/src/pages/contact.js:44 | a dictionary with a recorded message is not empty |
| ContactPage.ValidateAcceptable | frontend/src/pages/contact.js:28-44 | no errors exactly when the independent reading of the rules accepts the form |
| ContactPage.BlankEmailCalledInvalid | frontend/src/pages/contact.js:32-36 | an e-mail of blanks only is reported as invalid, not as missing |
| ContactPage.PayloadMeetsServerMinimums | frontend/src/pages/contact.js:55-60 | for any form, the body's subject and message keep at least 12 and 10 characters after Python's `strip`, above the server's minimums of 5 and 10; with a last name visible to Python the subject keeps at least 15; with both names visible the name keeps at least 3; with message and phone visible the message keeps at least 15 |
| ContactPage.NameCharacterRefusedByServer | frontend/src/pages/contact.js:56 | a last-name character that is neither an ASCII letter nor whitespace (a digit, a hyphen, an apostrophe) passes the page but makes the server refuse the name |
| ContactPage.SeparatorNameRefusedByServer | frontend/src/pages/contact.js:28-60 | names made of U+001C pass the page, whose `trim` keeps it, yet the name the server receives is blank to Python and refused as blank |
| ContactPage.ServerRepliesShown | frontend/src/pages/contact.js:62-77 | a 200 shows the server's success text, a 500 its error, and a 400 the network-error text |
| ContactPage.FieldErrorsHaveNoErrorKey | frontend/src/pages/contact.js:74-77 | the server's field errors have no `error` key, so a 400 always falls back to the network text |
| AppRoutes.PrivateRoute | frontend/src/App.js:18-34 | spinner while loading; /login when signed out; /taches for a non-admin on an admin route; the children exactly otherwise |
| AppRoutes.PublicRoute | frontend/src/App.js:37-49 | spinner while loading; /taches when signed in; the children exactly when signed out |
| AppRoutes.GuardsComplement | frontend/src/App.js:18-49 | once loading is over, the private and public guards never both show their page |
| AppRoutes.TeardownLocksPrivatePages | frontend/src/App.js:25-27 | after the refresh-failure teardown or a logout, private pages redirect to /login and public ones open |
| AppRoutes.AdminPageAfterLogin | frontend/src/App.js:29-33 | after a complete sign-in through the hook, an admin route opens exactly when the profile's `est_admin` is truthy and redirects to /taches otherwise |
| Serializers.ValidateTask | backend/todolist_app/serializers.py:85-99 | valid exactly when the stripped length lies in 3..200, returning the stripped text, with the short or long message otherwise |
| Serializers.ValidateTaskIdempotent | backend/todolist_app/serializers.py:87-99 | an accepted text is stripped already and is accepted again unchanged |
| Serializers.TaskVerdict | backend/todolist_app/serializers.py:49-54 | defines the `task` field `ModelSerializer` builds from the model's `CharField(max_length=200)` and `MinLengthValidator(3)`: a trimming `CharField` of 3..200 that refuses blanks, followed by `validate_task` |
| Serializers.TaskFieldCheckRedundant | backend/todolist_app/serializers.py:85-99 | what the `task` field passes, `validate_task` returns unchanged |
| Serializers.TaskVerdictAgrees | backend/todolist_app/serializers.py:85-99 | the field followed by `validate_task` accepts exactly what `validate_task` accepts, with the same stripped value |
| Serializers.TaskRefusalMessages | backend/todolist_app/models.py:22-30 | a blank task gets "This field may not be blank.", a short or long one the framework's length message for 3 or 200, so `validate_task`'s two messages are never sent |
| Serializers.SeparatorPaddedTaskRefused | backend/todolist_app/serializers.py:87-89 | two visible characters between two U+001C..U+001F separators strip to two characters and are refused as too short |
| Serializers.ValidateData | backend/todolist_app/serializers.py:101-109 | an error exactly when `done` is true and the stripped task (or "") is shorter than 3 |
| Serializers.DoneRuleAfterTaskRule | backend/todolist_app/serializers.py:104-107 | after `validate_task` the rule cannot fire; `done` true without a task fires it; `done` false or absent never does |
| Serializers.Status | backend/todolist_app/serializers.py:81-83 | "Completed" exactly when done, "Pending" exactly when not |
| Serializers.TaskLength | backend/todolist_app/serializers.py:77-79 | the text's length, within 3..200 for a validated stored text |
| Serializers.CharField | backend/todolist_app/serializers.py:126-149 | a trimming `CharField` accepts exactly a non-blank trimmed value within its bounds and returns it trimmed |
| Serializers.WithoutSpaces | backend/todolist_app/serializers.py:153 | exactly the characters of the input other than ' ' |
| Serializers.TitleFrom | backend/todolist_app/serializers.py:157 | title-casing keeps the length |
| Serializers.TitleKeepsKinds | backend/todolist_app/serializers.py:157 | letters stay letters and everything else is unchanged |
| Serializers.TitleIdempotent | backend/todolist_app/serializers.py:157 | title-casing twice is title-casing once |
| Serializers.ValidateName | backend/todolist_app/serializers.py:151-157 | valid exactly when the name without spaces is non-empty letters, returned title-cased |
| Serializers.NameShape | backend/todolist_app/serializers.py:151-157 | an accepted name consists of letters and spaces with at least one letter, and so does its title-cased value |
| Serializers.NameAlpha | backend/todolist_app/serializers.py:153 | letters and spaces with at least one letter are accepted (the converse of `NameShape`) |
| Serializers.ValidateSubject | backend/todolist_app/serializers.py:159-166 | valid exactly when the stripped subject has at least 5 characters, returning it stripped |
| Serializers.ValidateMessage | backend/todolist_app/serializers.py:168-175 | valid exactly when the stripped message has at least 10 characters, returning it stripped |
| Serializers.ShortTextChecksRedundant | backend/todolist_app/serializers.py:137-175 | what the subject and message fields accept their validators never refuse |
| Serializers.Then | backend/todolist_app/serializers.py:126-157 | a field's own error stops its validator; otherwise the validator's verdict stands |
| Serializers.Errors | backend/todolist_app/views.py:72 | a field has an entry exactly when it was refused; the dictionary is empty exactly when all four pass |
| Serializers.ErrorsKeys | backend/todolist_app/views.py:72 | the only keys are the four field names |
| Serializers.ContactValidated | backend/todolist_app/views.py:54-58 | validated data exists exactly when there are no errors, and holds the validators' values |
| Serializers.ContactBounds | backend/todolist_app/serializers.py:126-175 | validated data has a title-cased name of 2..100 and a stripped subject of 5..200 and message of 10..2000 |
| TaskModel.Cleaned | backend/todolist_app/models.py:76-77 | `clean` leaves the stripped text |
| TaskModel.AcceptableIsStored | backend/todolist_app/models.py:71-89 | what `full_clean` accepts leaves a storable text, and a storable text is accepted unchanged |
| TaskModel.PaddedShortTextRefused | backend/todolist_app/models.py:22-84 | " ab " passes the field validators on the raw text but `clean` refuses it after stripping |
| TaskModel.SeparatorPaddedTextRefused | backend/todolist_app/models.py:76-80 | two visible characters between two U+001C..U+001F separators pass the field validators on the four raw characters, but `clean` strips the separators and refuses the text |
| TaskModel.DescribeParts | backend/todolist_app/models.py:66-69 | `__str__` is the text's first 30 characters, "... - " and the emoji status, which is the Done mark exactly when done |
| TaskModel.Describe | backend/todolist_app/models.py:66-69 | defines `__str__`: the text's first 30 characters, "... - " and the status mark |
| TaskModel.DescribeMissesTestWording | backend/todolist_app/models.py:68 | for a short text without 'T' or 'E' the string holds neither "Terminée" nor "En attente" |
| TaskModel.BuyMilkQualifies | backend/todolist_app/tests/test_models.py:9-14 | the model test's own task falls under the previous lemma |
| TaskModel.IsOverdue | backend/todolist_app/models.py:91-95 | always false |
| TaskModel.TaskRow.constructor | backend/todolist_app/models.py:32-36 | a new instance has no key and is not done |
| TaskModel.TaskRow.Clean | backend/todolist_app/models.py:71-84 | strips the text in place and refuses exactly a stripped text shorter than 3; other fields unchanged |
| TaskModel.TaskRow.FullClean | backend/todolist_app/models.py:22-84 | accepts exactly what the field validators and `clean` accept, leaving the stripped text |
| TaskModel.TaskRow.Save | backend/todolist_app/models.py:86-89 | a refused instance changes nothing in the table; an accepted one is inserted under the next key or updated under its own, and the table stays valid |
| TaskModel.TaskRow.Store | backend/todolist_app/models.py:89 | the write itself: an INSERT under the next key for a new instance, an UPDATE-or-INSERT under its own key otherwise, keeping the table valid |
| TaskModel.Create | backend/todolist_app/models.py:86-89 | a new instance built from the given fields and saved: refused (table unchanged) exactly when the text is not acceptable, otherwise appended under the next key with the stripped text |
| TaskModel.Replace | backend/todolist_app/models.py:89 | an UPDATE changes exactly the row with that key |
| TaskModel.Upsert | backend/todolist_app/models.py:89 | an UPDATE when the key is present, an INSERT at the end when it is not |
| TaskModel.ReplaceKeepsTable | backend/todolist_app/models.py:86-89 | an UPDATE keeps rows storable and keys distinct and below the next key |
| TaskModel.AppendKeepsTable | backend/todolist_app/models.py:86-89 | an INSERT under an unused key keeps the table valid |
| TaskModel.UpsertKeepsTable | backend/todolist_app/models.py:86-89 | a save under an existing key keeps the table valid |
| TaskViews.Visible | backend/todolist_app/views.py:20-24 | keeps exactly the rows the user sees, each with its multiplicity |
| TaskViews.Insert | backend/todolist_app/views.py:23-24 | inserting adds exactly one occurrence of the row |
| TaskViews.InsertKeepsOrder | backend/todolist_app/views.py:23-24 | inserting into a newest-first list keeps it newest first |
| TaskViews.SortNewest | backend/todolist_app/views.py:23-24 | the result is a permutation of the input ordered newest `created_at` first |
| TaskViews.Queryset | backend/todolist_app/views.py:20-24 | defines `get_queryset`: the visible rows sorted newest first |
| TaskViews.QuerysetSpec | backend/todolist_app/views.py:20-24 | the queryset is newest first and holds exactly the user's own rows, or every row for staff, with their multiplicities |
| TaskViews.Find | backend/todolist_app/views.py:32 | `get_object` finds a row with that key the user sees, or there is none |
| TaskViews.Marked | backend/todolist_app/views.py:30-43 | defines the table after a status action: the found row with the new flag saved under its key, or the table unchanged |
| TaskViews.MarkedEffect | backend/todolist_app/views.py:30-43 | a status action sets the flag of exactly the visible row with that key; text, owner and everything else stay |
| TaskViews.MarkedIdempotent | backend/todolist_app/views.py:30-35 | marking twice gives the same table as marking once |
| TaskViews.SetDone | backend/todolist_app/views.py:30-43 | the table becomes the marked table and stays valid; 200 with the message when found, 404 otherwise |
| TaskViews.MarkComplete | backend/todolist_app/views.py:29-35 | sets `done` on the visible row and answers "Tâche terminée" |
| TaskViews.MarkPending | backend/todolist_app/views.py:37-43 | clears `done` on the visible row and answers "Tâche en attente" |
| TaskViews.SerializerTextIsStored | backend/todolist_app/views.py:26-27 | what the serializer's `task` field and `validate_task` accept, the model's `save` accepts unchanged |
| TaskViews.PerformCreate | backend/todolist_app/views.py:26-27 | for a text the serializer's `task` field and `validate_task` accept, and data the object rule accepts, the new row, owned by the requesting user, is appended under the next key with the stripped text |
| TaskViews.CreatedTaskVisible | backend/todolist_app/views.py:20-27 | a row just created appears in its owner's queryset |
| TaskViews.Respond | backend/todolist_app/views.py:54-72 | 400 with the errors and no mail when invalid; otherwise the mail, then 200 with the success text or 500 with the mail error |
| TaskViews.ContactPost | backend/todolist_app/views.py:52-72 | nothing is mailed exactly when the serializer has errors, and a 400 carries those errors |
| TaskViews.ContactMailShape | backend/todolist_app/views.py:61-65 | the mail subject is "Contact Form: " + the subject (19..214 characters) and the one recipient is the sender |
| UserViews.ConsentValue | backend/users_app/views.py:17 | a missing consent reads as false |
| UserViews.RegisterGate | backend/users_app/views.py:16-22 | a 400 with the consent message exactly when the consent is false in Python's sense; otherwise creation goes on |
| UserViews.ConsentCases | backend/users_app/views.py:17-22 | missing, false, "", 0, [] and {} are refused; true and "false" pass; [] and {} are truthy in JavaScript |
| UserViews.RegisterPagePassesGate | backend/users_app/views.py:17-22 | what the registration page sends always passes the gate |
| UserViews.Me | backend/users_app/views.py:29-37 | exactly the five French keys, with `est_admin` the staff flag |
| UserViews.ProfileDrivesClient | backend/users_app/views.py:36 | the client's destination, stored flag and admin route all follow the staff flag |

## Left out

- Real HTTP, the 10-second timeout and `window.location` are not modelled. Replies are an input sequence, a missing reply is the timeout error, and navigation is a returned path.
- Console logging, the `process.env` debug dump, `setTimeout` (the delayed success reset and delayed navigation) and JSX rendering are left out.
- Concurrent requests are not modelled. Two requests that get a 401 at once would each refresh, and the model runs one request at a time.
- `JSON.parse`/`JSON.stringify` are a `Codec` parameter, and the profile is opaque. A parse that throws is not modelled.
- `frontend/src/api/tasks.js` and `frontend/src/api/contact.js` are one-line delegations. Only their methods and paths appear, as `UseTasks` request builders.
- `get_is_recent` and `time_since_creation` read the wall clock, so they are left out. `created_at` is an input value, and `updated_at`'s automatic update is not modelled.
- The e-mail field's validator is Django's own code; its verdict is a boolean parameter. `send_mail` is an optional error message.
- The framework's `CharField` also refuses null characters and lone surrogates; those two validators are not modelled.
- Django REST framework internals are outside the model: the authentication check, the 404 body, the row that `CreateAPIView` would create after the consent gate, and JWT minting.
- Whitespace is ASCII only. JavaScript's `trim` removes tab, line feed, vertical tab, form feed, carriage return and space; Python's `strip` removes those and also U+001C..U+001F. Non-ASCII whitespace (U+00A0, U+2028, U+3000 and the others both languages strip) is left out for both.
- Letters are the ASCII letters, so Unicode `isalpha`/`title` are left out: an accented letter, which the server accepts in a name, is outside the model.
- TaskViews.SortNewest: rows created at the same instant keep their table order. The database does not promise any order among them.
- Numbers are integers, and `String(v)` of a fractional number is not modelled.

## Code and documented intent

Where the code and its documented or tested intent differ, the model follows the code.

- The refresh-failure teardown removes `access`, `refresh` and `is_staff` but keeps `user`, while `logout` removes all four (`AuthApi.TeardownKeepsUser`).
- `__str__` ends in "✅ Done"/"⏳ Pending". The model test looks for "Terminée"/"En attente", which never appear (`TaskModel.DescribeMissesTestWording`).
- The hook and the registration page wrap the server's error object in `new Error(...)`, so the text shown is "[object Object]" (`UseAuth.RegisterObjectError`, `RegisterPage.ObjectErrorShownVerbatim`).
- The registration page measures the username's length before trimming (`RegisterPage.UntrimmedUsernameLength`).
- A wrong password with no refresh token stored gets a 401. The interceptor rejects with "No refresh token available", which has no `detail`, so the login page shows "Échec de la connexion" rather than the wrong-credentials text (`LoginPage.WrongPasswordShowsTokenFailure`).
- The model's field validators run on the raw text, before `clean` strips it. So " ab " passes them, and `clean` then refuses it (`TaskModel.PaddedShortTextRefused`).
- `validate_task` refuses short and long texts with its own messages, but the `task` field that `ModelSerializer` derives from the model refuses them first, with the framework's blank and length messages. So the client never receives `validate_task`'s messages (`Serializers.TaskRefusalMessages`).
- A 400 from the contact endpoint carries only field errors, so the contact page shows the network-error text (`ContactPage.ServerRepliesShown`, `ContactPage.FieldErrorsHaveNoErrorKey`).
- The contact page tests the e-mail untrimmed, so an e-mail of blanks is called invalid rather than missing (`ContactPage.BlankEmailCalledInvalid`).
- A digit in the last name passes the contact page and is refused by the server (`ContactPage.NameCharacterRefusedByServer`).
- The page trims with JavaScript's whitespace set and the server strips with Python's, which also holds U+001C..U+001F. A name of those separators passes the page and is refused as blank by the server (`ContactPage.SeparatorNameRefusedByServer`), and a task padded with them shrinks on the server (`Serializers.SeparatorPaddedTaskRefused`).
- An empty list or dict as consent counts as given in JavaScript and as refused by the server (`UserViews.ConsentCases`).

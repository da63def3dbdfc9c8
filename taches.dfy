/** The task page's handlers (frontend/src/pages/Taches.js): list reading
    with its page links, adding, deleting, in-place editing and toggling,
    each a sequence of state updates around one call.

    The access token is read once per render, so it is an input of every
    handler. The confirmation dialog's answer is an input of `deleteTask`.
    Re-reads after a change are started without being awaited; they touch
    none of the state the handler sets after them, so running them to the
    end first gives the same final state. */
module Taches {
  import opened Common
  import opened JsonValue
  import opened AxiosInstance
  import opened UseTasks

  const LoadFailedMessage := "Impossible de charger les tâches."
  const EmptyTaskError := "La tâche ne peut pas être vide"
  const AddFailedMessage := "Erreur lors de l'ajout."
  const DeleteFailedMessage := "Erreur lors de la suppression."
  const EditFailedMessage := "Erreur lors de la modification."
  const ToggleFailedMessage := "Erreur lors de la mise à jour du statut."
  const AddedMessage := "Tâche ajoutée avec succès!"
  const DeletedMessage := "Tâche supprimée avec succès!"
  const EditedMessage := "Tâche modifiée avec succès!"

  /** The page's React state. `error` holds whatever value was set, which is
      a string except when the server's error object says otherwise. */
  datatype PageState = PageState(
    tasks: Json,
    newTask: string,
    editingTask: Json,
    editTaskText: string,
    loading: bool,
    submitting: bool,
    error: Json,
    success: string,
    nextUrl: Json,
    prevUrl: Json,
    count: Json)

  const InitialPage := PageState(JArr([]), "", JNull, "", false, false, JStr(""), "", JNull, JNull, JNum(0))

  /** A handler's effect: the state after it, the requests it made and the
      results left for later calls. */
  datatype Effect = Effect(state: PageState, calls: seq<Request>, rest: seq<ApiResult>)

  /** `if (!token)`: no access token, or an empty one. */
  predicate NoToken(token: Option<string>) {
    token.None? || token.value == ""
  }

  /** `fetchTasks(url)`. Without a token nothing happens. A body that is
      `null` makes reading `results` throw after `loading` was set, and the
      update stops there. */
  function FetchEffect(p: PageState, token: Option<string>, url: string, results: seq<ApiResult>): Effect {
    if NoToken(token) then Effect(p, [], results)
    else
      var r := NextResult(results);
      var started := p.(loading := true, error := JStr(""));
      var calls := [GetTasks(url)];
      if r.ApiOk? && Nullish(r.data) then Effect(started, calls, LaterResults(results))
      else if r.ApiOk? then
        var list := Get(r.data, "results");
        Effect(started.(tasks := if list.JArr? then list else JArr([]),
                        nextUrl := Get(r.data, "next"), prevUrl := Get(r.data, "previous"),
                        count := Or(Get(r.data, "count"), JNum(0)), loading := false),
               calls, LaterResults(results))
      else
        Effect(started.(error := Or(Get(r.error, "message"), JStr(LoadFailedMessage)), loading := false),
               calls, LaterResults(results))
  }

  /** The value set as error from `result.error?.task?.[0] || fallback`. */
  function TaskFieldError(r: ApiResult, fallback: string): Json {
    if r.ApiErr? then Or(At(Get(r.error, "task"), 0), JStr(fallback)) else JStr(fallback)
  }

  /** `addTask`: a blank text only sets the error. */
  function AddEffect(p: PageState, token: Option<string>, results: seq<ApiResult>): Effect {
    if Blank(p.newTask) then Effect(p.(error := JStr(EmptyTaskError)), [], results)
    else
      AddSent(p.(submitting := true, error := JStr(""), success := ""), token,
              CreateTaskCall(JObj(map["task" := JStr(p.newTask)])), NextResult(results), LaterResults(results))
  }

  /** The part of `addTask` after its call `call` received `r`. */
  function AddSent(started: PageState, token: Option<string>, call: Request, r: ApiResult,
                   later: seq<ApiResult>): Effect
  {
    if r.ApiOk? then
      var f := FetchEffect(started.(newTask := "", success := AddedMessage), token, ListPath, later);
      Effect(f.state.(submitting := false), [call] + f.calls, f.rest)
    else
      Effect(started.(error := TaskFieldError(r, AddFailedMessage), submitting := false), [call], later)
  }

  /** `deleteTask(id)`, given the user's answer to the confirmation. */
  function DeleteEffect(p: PageState, token: Option<string>, id: Json, confirmed: bool,
                        results: seq<ApiResult>): Effect
  {
    if !confirmed then Effect(p, [], results)
    else
      var r := NextResult(results);
      var started := p.(loading := true, error := JStr(""));
      if r.ApiOk? then
        var f := FetchEffect(started.(success := DeletedMessage), token, ListPath, LaterResults(results));
        Effect(f.state, [DeleteTaskCall(id)] + f.calls, f.rest)
      else
        Effect(started.(error := JStr(DeleteFailedMessage), loading := false),
               [DeleteTaskCall(id)], LaterResults(results))
  }

  /** `startEditing(task)`. */
  function StartEditing(p: PageState, task: Json): (q: PageState)
    requires Get(task, "task").JStr?
    ensures q.editingTask == task && q.editTaskText == Get(task, "task").s
    ensures q.(editingTask := p.editingTask, editTaskText := p.editTaskText) == p
  {
    p.(editingTask := task, editTaskText := Get(task, "task").s)
  }

  /** `cancelEditing()`. */
  function CancelEditing(p: PageState): (q: PageState)
    ensures q.editingTask == JNull && q.editTaskText == ""
    ensures q.(editingTask := p.editingTask, editTaskText := p.editTaskText) == p
  {
    p.(editingTask := JNull, editTaskText := "")
  }

  /** The body `saveEdit` sends: the new text with the edited task's `done`
      as it was. */
  function EditPayload(p: PageState): Json {
    JObj(map["task" := JStr(p.editTaskText), "done" := Get(p.editingTask, "done")])
  }

  /** `saveEdit()`: nothing happens with a blank text or no task in edit. */
  function SaveEditEffect(p: PageState, token: Option<string>, results: seq<ApiResult>): Effect {
    if Blank(p.editTaskText) || !Truthy(p.editingTask) then Effect(p, [], results)
    else
      var call := UpdateTaskCall(Get(p.editingTask, "id"), EditPayload(p));
      var r := NextResult(results);
      var started := p.(loading := true, error := JStr(""));
      if r.ApiOk? then
        var f := FetchEffect(CancelEditing(started.(success := EditedMessage)), token, ListPath,
                             LaterResults(results));
        Effect(f.state, [call] + f.calls, f.rest)
      else
        Effect(started.(error := TaskFieldError(r, EditFailedMessage), loading := false),
               [call], LaterResults(results))
  }

  /** `toggleDone(task)`: a done task is marked pending, any other complete. */
  function ToggleEffect(p: PageState, token: Option<string>, task: Json, results: seq<ApiResult>): Effect
    requires !Nullish(task)
  {
    var call := if Truthy(Get(task, "done")) then MarkPendingCall(Get(task, "id"))
                else MarkCompleteCall(Get(task, "id"));
    var r := NextResult(results);
    var started := p.(loading := true, error := JStr(""));
    if r.ApiOk? then
      var f := FetchEffect(started, token, ListPath, LaterResults(results));
      Effect(f.state, [call] + f.calls, f.rest)
    else
      Effect(started.(error := JStr(ToggleFailedMessage), loading := false), [call], LaterResults(results))
  }

  class TachesPage {
    var tasks: Json
    var newTask: string
    var editingTask: Json
    var editTaskText: string
    var loading: bool
    var submitting: bool
    var error: Json
    var success: string
    var nextUrl: Json
    var prevUrl: Json
    var count: Json

    function State(): PageState
      reads this
    {
      PageState(tasks, newTask, editingTask, editTaskText, loading, submitting, error, success,
                nextUrl, prevUrl, count)
    }

    constructor ()
      ensures State() == InitialPage
    {
      tasks, newTask, editingTask, editTaskText := JArr([]), "", JNull, "";
      loading, submitting, error, success := false, false, JStr(""), "";
      nextUrl, prevUrl, count := JNull, JNull, JNum(0);
    }

    method FetchTasks(token: Option<string>, url: string, results: seq<ApiResult>)
      returns (calls: seq<Request>, rest: seq<ApiResult>)
      modifies this
      ensures Effect(State(), calls, rest) == FetchEffect(old(State()), token, url, results)
    {
      if token.None? || token.value == "" {
        return [], results;
      }
      loading := true;
      error := JStr("");
      var r := NextResult(results);
      calls, rest := [GetTasks(url)], LaterResults(results);
      if r.ApiOk? && Nullish(r.data) {
        return;
      }
      if r.ApiOk? {
        var list := Get(r.data, "results");
        tasks := if list.JArr? then list else JArr([]);
        nextUrl := Get(r.data, "next");
        prevUrl := Get(r.data, "previous");
        count := Or(Get(r.data, "count"), JNum(0));
      } else {
        error := Or(Get(r.error, "message"), JStr(LoadFailedMessage));
      }
      loading := false;
    }

    method AddTask(token: Option<string>, results: seq<ApiResult>)
      returns (calls: seq<Request>, rest: seq<ApiResult>)
      modifies this
      ensures Effect(State(), calls, rest) == AddEffect(old(State()), token, results)
    {
      if Blank(newTask) {
        error := JStr(EmptyTaskError);
        return [], results;
      }
      var call := CreateTaskCall(JObj(map["task" := JStr(newTask)]));
      submitting := true;
      error := JStr("");
      success := "";
      calls, rest := Created(token, call, NextResult(results), LaterResults(results));
    }

    /** `addTask` once its call has been answered. */
    method Created(token: Option<string>, call: Request, r: ApiResult, later: seq<ApiResult>)
      returns (calls: seq<Request>, rest: seq<ApiResult>)
      modifies this
      ensures Effect(State(), calls, rest) == AddSent(old(State()), token, call, r, later)
    {
      if r.ApiOk? {
        newTask := "";
        success := AddedMessage;
        var refetch, left := FetchTasks(token, ListPath, later);
        calls, rest := [call] + refetch, left;
      } else {
        error := TaskFieldError(r, AddFailedMessage);
        calls, rest := [call], later;
      }
      submitting := false;
    }

    method DeleteTask(token: Option<string>, id: Json, confirmed: bool, results: seq<ApiResult>)
      returns (calls: seq<Request>, rest: seq<ApiResult>)
      modifies this
      ensures Effect(State(), calls, rest) == DeleteEffect(old(State()), token, id, confirmed, results)
    {
      if !confirmed {
        return [], results;
      }
      loading := true;
      error := JStr("");
      var r := NextResult(results);
      if r.ApiOk? {
        success := DeletedMessage;
        var refetch, left := FetchTasks(token, ListPath, LaterResults(results));
        calls, rest := [DeleteTaskCall(id)] + refetch, left;
      } else {
        error := JStr(DeleteFailedMessage);
        loading := false;
        calls, rest := [DeleteTaskCall(id)], LaterResults(results);
      }
    }

    method StartEditingTask(task: Json)
      requires Get(task, "task").JStr?
      modifies this
      ensures State() == StartEditing(old(State()), task)
    {
      editingTask := task;
      editTaskText := Get(task, "task").s;
    }

    method CancelEditingTask()
      modifies this
      ensures State() == CancelEditing(old(State()))
    {
      editingTask := JNull;
      editTaskText := "";
    }

    method SaveEdit(token: Option<string>, results: seq<ApiResult>)
      returns (calls: seq<Request>, rest: seq<ApiResult>)
      modifies this
      ensures Effect(State(), calls, rest) == SaveEditEffect(old(State()), token, results)
    {
      ghost var p := State();
      if Blank(editTaskText) || !Truthy(editingTask) {
        return [], results;
      }
      var call := UpdateTaskCall(Get(editingTask, "id"), EditPayload(State()));
      loading := true;
      error := JStr("");
      ghost var started := State();
      assert started == p.(loading := true, error := JStr(""));
      var r := NextResult(results);
      if r.ApiOk? {
        success := EditedMessage;
        assert State() == started.(success := EditedMessage);
        CancelEditingTask();
        var refetch, left := FetchTasks(token, ListPath, LaterResults(results));
        calls, rest := [call] + refetch, left;
      } else {
        error := TaskFieldError(r, EditFailedMessage);
        loading := false;
        calls, rest := [call], LaterResults(results);
      }
    }

    method ToggleDone(token: Option<string>, task: Json, results: seq<ApiResult>)
      returns (calls: seq<Request>, rest: seq<ApiResult>)
      requires !Nullish(task)
      modifies this
      ensures Effect(State(), calls, rest) == ToggleEffect(old(State()), token, task, results)
    {
      loading := true;
      error := JStr("");
      var call := if Truthy(Get(task, "done")) then MarkPendingCall(Get(task, "id"))
                  else MarkCompleteCall(Get(task, "id"));
      var r := NextResult(results);
      if r.ApiOk? {
        var refetch, left := FetchTasks(token, ListPath, LaterResults(results));
        calls, rest := [call] + refetch, left;
      } else {
        error := JStr(ToggleFailedMessage);
        loading := false;
        calls, rest := [call], LaterResults(results);
      }
    }
  }

  // ----- properties -----

  /** Without an access token the list is never read. */
  lemma {:induction false} FetchNeedsToken(p: PageState, token: Option<string>, url: string,
                                           results: seq<ApiResult>)
    ensures var e := FetchEffect(p, token, url, results);
      (e.calls == [] <==> NoToken(token)) && (NoToken(token) ==> e.state == p && e.rest == results)
  {
  }

  /** A successful read shows `results` only when it is an array, the empty
      list otherwise, and a count of 0 when the body's count is missing or
      falsy; the page links are copied as they are. */
  lemma {:induction false} FetchShowsArrayOnly(p: PageState, token: Option<string>, url: string,
                                               results: seq<ApiResult>)
    requires !NoToken(token)
    requires results != [] && results[0].ApiOk? && results[0].data.JObj?
    ensures var data := results[0].data; var e := FetchEffect(p, token, url, results);
      && (Get(data, "results").JArr? ==> e.state.tasks == Get(data, "results"))
      && (!Get(data, "results").JArr? ==> e.state.tasks == JArr([]))
      && (!Truthy(Get(data, "count")) ==> e.state.count == JNum(0))
      && e.state.nextUrl == Get(data, "next") && e.state.prevUrl == Get(data, "previous")
      && !e.state.loading && e.state.error == JStr("")
  {
  }

  /** A blank new task only sets the error: no call, nothing else changes. */
  lemma {:induction false} AddBlankMakesNoCall(p: PageState, token: Option<string>, results: seq<ApiResult>)
    requires AllSpace(JavaScript, p.newTask)
    ensures AddEffect(p, token, results) == Effect(p.(error := JStr(EmptyTaskError)), [], results)
  {
  }

  /** A successful add clears the input, announces itself, re-reads the list
      (with a token) and ends with `submitting` false. */
  lemma {:induction false} AddSuccessClearsInput(p: PageState, token: Option<string>, created: Json,
                                                 later: seq<ApiResult>)
    requires !Blank(p.newTask)
    ensures var e := AddEffect(p, token, [ApiOk(created)] + later);
      && e.state.newTask == "" && e.state.success == AddedMessage && !e.state.submitting
      && e.calls[0] == CreateTaskCall(JObj(map["task" := JStr(p.newTask)]))
      && (!NoToken(token) ==> e.calls == [e.calls[0], GetTasks(ListPath)])
  {
    var results := [ApiOk(created)] + later;
    assert NextResult(results) == ApiOk(created) && LaterResults(results) == later;
  }

  /** `saveEdit` does nothing with a blank text or when no task is in edit
      (`editingTask` is falsy). */
  lemma {:induction false} SaveEditNeedsTextAndTask(p: PageState, token: Option<string>,
                                                    results: seq<ApiResult>)
    requires Blank(p.editTaskText) || !Truthy(p.editingTask)
    ensures SaveEditEffect(p, token, results) == Effect(p, [], results)
  {
  }

  /** Editing a task and saving it unchanged sends its own text back with
      its `done` as it was; a successful save leaves edit mode. */
  lemma {:induction false} EditRoundTrip(p: PageState, token: Option<string>, task: Json,
                                         results: seq<ApiResult>)
    requires task.JObj? && Get(task, "task").JStr? && !Blank(Get(task, "task").s)
    ensures var q := StartEditing(p, task); var e := SaveEditEffect(q, token, results);
      && e.calls[0] == UpdateTaskCall(Get(task, "id"),
           JObj(map["task" := Get(task, "task"), "done" := Get(task, "done")]))
      && (NextResult(results).ApiOk? ==> e.state.editingTask == JNull && e.state.editTaskText == "")
      && (NextResult(results).ApiErr? ==> e.state.editingTask == task)
  {
  }

  /** A done task is marked pending and any other task complete. */
  lemma {:induction false} ToggleChoosesTransition(p: PageState, token: Option<string>, task: Json,
                                                   results: seq<ApiResult>)
    requires task.JObj?
    ensures var e := ToggleEffect(p, token, task, results);
      e.calls[0] == (if Truthy(Get(task, "done")) then MarkPendingCall(Get(task, "id"))
                     else MarkCompleteCall(Get(task, "id")))
  {
  }

  /** A delete the user does not confirm changes nothing and calls nothing. */
  lemma {:induction false} DeleteNeedsConfirmation(p: PageState, token: Option<string>, id: Json,
                                                   results: seq<ApiResult>)
    ensures DeleteEffect(p, token, id, false, results) == Effect(p, [], results)
    ensures DeleteEffect(p, token, id, true, results).calls[0] == DeleteTaskCall(id)
  {
  }
}

/** The task-list hook (frontend/src/hooks/useTasks.js): five actions that
    set `loading`, `error`, `tasks` and `pagination` step by step around one
    `apiCall` each, re-reading the list after every successful change.

    The hook only sees `apiCall`'s result values, so the network is the
    sequence of results its calls receive, in order (a call for which none
    is left receives the timeout error). */
module UseTasks {
  import opened Common
  import opened JsonValue
  import opened AxiosInstance

  const ListPath := "tasks/"
  const EmptyTaskMessage := "Task cannot be empty"
  const GenericErrorMessage := "An error occurred"

  // ----- the task API's calls (frontend/src/api/tasks.js) -----

  /** `tasks/<id>/`, the id printed as a template literal prints it. */
  function TaskPath(id: Json): string {
    "tasks/" + ToJsString(id) + "/"
  }

  function GetTasks(url: string): Request { NewRequest("get", url, JNull) }
  function CreateTaskCall(data: Json): Request { NewRequest("post", ListPath, data) }
  function UpdateTaskCall(id: Json, data: Json): Request { NewRequest("put", TaskPath(id), data) }
  function DeleteTaskCall(id: Json): Request { NewRequest("delete", TaskPath(id), JNull) }
  function MarkCompleteCall(id: Json): Request { NewRequest("post", TaskPath(id) + "mark_complete/", JNull) }
  function MarkPendingCall(id: Json): Request { NewRequest("post", TaskPath(id) + "mark_pending/", JNull) }

  /** The result the next call receives. */
  function NextResult(results: seq<ApiResult>): ApiResult {
    if results == [] then ApiErr(JObj(map["message" := JStr(TimeoutMessage)]), None)
    else results[0]
  }

  function LaterResults(results: seq<ApiResult>): seq<ApiResult> {
    if results == [] then [] else results[1..]
  }

  // ----- the hook's state and its transitions -----

  datatype Pagination = Pagination(next: Json, previous: Json, count: Json)

  datatype TasksState = TasksState(
    tasks: Json,
    loading: bool,
    error: Option<string>,
    pagination: Pagination)

  const InitialState := TasksState(JArr([]), false, None, Pagination(JNull, JNull, JNum(0)))

  /** What an action returns: `{success: true, message?, data?}` (absent
      parts are `undefined`) or `{success: false, error}`. */
  datatype Outcome = Ok(message: Json, data: Json) | Err(error: string)

  /** One action: the state after it, its result, the requests it made and
      the results left for later calls. */
  datatype Step = Step(state: TasksState, outcome: Outcome, calls: seq<Request>, rest: seq<ApiResult>)

  /** `hasNextPage`, `hasPreviousPage` and `totalTasks`. */
  predicate HasNextPage(s: TasksState) { Truthy(s.pagination.next) }
  predicate HasPreviousPage(s: TasksState) { Truthy(s.pagination.previous) }
  function TotalTasks(s: TasksState): Json { s.pagination.count }

  /** `fetchTasks(url)`. A `null` or missing body makes reading `results`
      throw; the list is left alone then. */
  function FetchStep(s: TasksState, url: string, results: seq<ApiResult>): Step {
    var r := NextResult(results);
    if r.ApiOk? && !Nullish(r.data) then
      var page := Pagination(Get(r.data, "next"), Get(r.data, "previous"), Or(Get(r.data, "count"), JNum(0)));
      Step(TasksState(Or(Get(r.data, "results"), JArr([])), false, None, page),
           Ok(JUndefined, r.data), [GetTasks(url)], LaterResults(results))
    else
      var msg := if r.ApiOk? then PropertyReadMessage("results", r.data)
                 else CaughtMessage(Or(Get(r.error, "detail"), JStr("Failed to fetch tasks")), GenericErrorMessage);
      Step(s.(loading := false, error := Some(msg)), Err(msg), [GetTasks(url)], LaterResults(results))
  }

  /** The common shape of the four changing actions once their call has
      been made: on success the list is re-read and the action succeeds
      whatever the re-read gives; on failure `thrown` is the value thrown. */
  function AfterChange(s: TasksState, call: Request, r: ApiResult, rest: seq<ApiResult>,
                       message: string, withData: bool, thrown: Json): Step
  {
    if r.ApiOk? then
      var f := FetchStep(s.(loading := true, error := None), ListPath, rest);
      Step(f.state.(loading := false), Ok(JStr(message), if withData then r.data else JUndefined),
           [call] + f.calls, f.rest)
    else
      var msg := CaughtMessage(thrown, GenericErrorMessage);
      Step(s.(loading := false, error := Some(msg)), Err(msg), [call], rest)
  }

  /** The value `throw new Error(result.error?.task?.[0] || fallback)` throws. */
  function FieldError(r: ApiResult, fallback: string): Json {
    if r.ApiErr? then Or(At(Get(r.error, "task"), 0), JStr(fallback)) else JStr(fallback)
  }

  /** `createTask(taskText)`: a blank text is refused before any call. */
  function CreateStep(s: TasksState, taskText: string, results: seq<ApiResult>): Step {
    if Blank(taskText) then
      Step(s.(error := Some(EmptyTaskMessage)), Err(EmptyTaskMessage), [], results)
    else
      var call := CreateTaskCall(JObj(map["task" := JStr(taskText)]));
      var r := NextResult(results);
      AfterChange(s, call, r, LaterResults(results), "Task created successfully", true,
                  FieldError(r, "Failed to create task"))
  }

  /** `updateTask(id, taskData)`. */
  function UpdateStep(s: TasksState, id: Json, taskData: Json, results: seq<ApiResult>): Step {
    var r := NextResult(results);
    AfterChange(s, UpdateTaskCall(id, taskData), r, LaterResults(results), "Task updated successfully", true,
                FieldError(r, "Failed to update task"))
  }

  /** `deleteTask(id)`. */
  function DeleteStep(s: TasksState, id: Json, results: seq<ApiResult>): Step {
    AfterChange(s, DeleteTaskCall(id), NextResult(results), LaterResults(results),
                "Task deleted successfully", false, JStr("Failed to delete task"))
  }

  /** `toggleTaskCompletion(task)`: a done task is marked pending, any other
      is marked complete; reading `done` of a null task throws. */
  function ToggleStep(s: TasksState, task: Json, results: seq<ApiResult>): Step {
    if Nullish(task) then
      var msg := PropertyReadMessage("done", task);
      Step(s.(loading := false, error := Some(msg)), Err(msg), [], results)
    else
      var done := Truthy(Get(task, "done"));
      var call := if done then MarkPendingCall(Get(task, "id")) else MarkCompleteCall(Get(task, "id"));
      AfterChange(s, call, NextResult(results), LaterResults(results),
                  "Task marked as " + (if done then "pending" else "complete"), false,
                  JStr("Failed to update task status"))
  }

  // ----- the hook -----

  class TasksHook {
    var tasks: Json
    var loading: bool
    var error: Option<string>
    var pagination: Pagination

    function State(): TasksState
      reads this
    {
      TasksState(tasks, loading, error, pagination)
    }

    constructor ()
      ensures State() == InitialState
    {
      tasks := JArr([]);
      loading := false;
      error := None;
      pagination := Pagination(JNull, JNull, JNum(0));
    }

    method FetchTasks(url: string, results: seq<ApiResult>)
      returns (outcome: Outcome, calls: seq<Request>, rest: seq<ApiResult>)
      modifies this
      ensures Step(State(), outcome, calls, rest) == FetchStep(old(State()), url, results)
    {
      loading := true;
      error := None;
      var r := NextResult(results);
      calls, rest := [GetTasks(url)], LaterResults(results);
      if r.ApiOk? && !Nullish(r.data) {
        tasks := Or(Get(r.data, "results"), JArr([]));
        pagination := Pagination(Get(r.data, "next"), Get(r.data, "previous"),
                                 Or(Get(r.data, "count"), JNum(0)));
        outcome := Ok(JUndefined, r.data);
      } else {
        var msg := if r.ApiOk? then PropertyReadMessage("results", r.data)
                   else CaughtMessage(Or(Get(r.error, "detail"), JStr("Failed to fetch tasks")), GenericErrorMessage);
        error := Some(msg);
        outcome := Err(msg);
      }
      loading := false;
    }

    /** The part every changing action shares, after its own call. */
    method Finish(call: Request, r: ApiResult, later: seq<ApiResult>, message: string, withData: bool,
                  thrown: Json)
      returns (outcome: Outcome, calls: seq<Request>, rest: seq<ApiResult>)
      modifies this
      ensures Step(State(), outcome, calls, rest) == AfterChange(old(State()), call, r, later, message, withData, thrown)
    {
      if r.ApiOk? {
        var _, refetch, left := FetchTasks(ListPath, later);
        outcome := Ok(JStr(message), if withData then r.data else JUndefined);
        calls, rest := [call] + refetch, left;
      } else {
        var msg := CaughtMessage(thrown, GenericErrorMessage);
        error := Some(msg);
        outcome := Err(msg);
        calls, rest := [call], later;
      }
      loading := false;
    }

    method CreateTask(taskText: string, results: seq<ApiResult>)
      returns (outcome: Outcome, calls: seq<Request>, rest: seq<ApiResult>)
      modifies this
      ensures Step(State(), outcome, calls, rest) == CreateStep(old(State()), taskText, results)
    {
      if Blank(taskText) {
        error := Some(EmptyTaskMessage);
        return Err(EmptyTaskMessage), [], results;
      }
      loading := true;
      error := None;
      var r := NextResult(results);
      outcome, calls, rest := Finish(CreateTaskCall(JObj(map["task" := JStr(taskText)])), r,
                                     LaterResults(results), "Task created successfully", true,
                                     FieldError(r, "Failed to create task"));
    }

    method UpdateTask(id: Json, taskData: Json, results: seq<ApiResult>)
      returns (outcome: Outcome, calls: seq<Request>, rest: seq<ApiResult>)
      modifies this
      ensures Step(State(), outcome, calls, rest) == UpdateStep(old(State()), id, taskData, results)
    {
      loading := true;
      error := None;
      var r := NextResult(results);
      outcome, calls, rest := Finish(UpdateTaskCall(id, taskData), r, LaterResults(results),
                                     "Task updated successfully", true, FieldError(r, "Failed to update task"));
    }

    method DeleteTask(id: Json, results: seq<ApiResult>)
      returns (outcome: Outcome, calls: seq<Request>, rest: seq<ApiResult>)
      modifies this
      ensures Step(State(), outcome, calls, rest) == DeleteStep(old(State()), id, results)
    {
      loading := true;
      error := None;
      outcome, calls, rest := Finish(DeleteTaskCall(id), NextResult(results), LaterResults(results),
                                     "Task deleted successfully", false, JStr("Failed to delete task"));
    }

    method ToggleTaskCompletion(task: Json, results: seq<ApiResult>)
      returns (outcome: Outcome, calls: seq<Request>, rest: seq<ApiResult>)
      modifies this
      ensures Step(State(), outcome, calls, rest) == ToggleStep(old(State()), task, results)
    {
      loading := true;
      error := None;
      if Nullish(task) {
        var msg := PropertyReadMessage("done", task);
        error := Some(msg);
        loading := false;
        return Err(msg), [], results;
      }
      var done := Truthy(Get(task, "done"));
      var call := if done then MarkPendingCall(Get(task, "id")) else MarkCompleteCall(Get(task, "id"));
      outcome, calls, rest := Finish(call, NextResult(results), LaterResults(results),
                                     "Task marked as " + (if done then "pending" else "complete"), false,
                                     JStr("Failed to update task status"));
    }
  }

  // ----- properties -----

  /** A blank text is refused with a fixed message before any call, and the
      list, the page data and the loading flag stay as they were. */
  lemma {:induction false} CreateBlankMakesNoCall(s: TasksState, taskText: string, results: seq<ApiResult>)
    requires AllSpace(JavaScript, taskText)
    ensures var st := CreateStep(s, taskText, results);
      && st.calls == [] && st.rest == results
      && st.outcome == Err(EmptyTaskMessage)
      && st.state == s.(error := Some(EmptyTaskMessage))
  {
  }

  /** A successful read replaces the list with `results` (an empty list when
      missing or falsy) and the page data with the body's `next`,
      `previous` and `count` (0 when missing or falsy), and clears the
      error. */
  lemma {:induction false} FetchSuccessReplacesList(s: TasksState, url: string, results: seq<ApiResult>)
    requires results != [] && results[0].ApiOk? && results[0].data.JObj?
    ensures var data := results[0].data; var st := FetchStep(s, url, results);
      && st.outcome == Ok(JUndefined, data)
      && (Truthy(Get(data, "results")) ==> st.state.tasks == Get(data, "results"))
      && (!Truthy(Get(data, "results")) ==> st.state.tasks == JArr([]))
      && st.state.pagination.next == Get(data, "next")
      && st.state.pagination.previous == Get(data, "previous")
      && (HasNextPage(st.state) <==> Truthy(Get(data, "next")))
      && (HasPreviousPage(st.state) <==> Truthy(Get(data, "previous")))
      && (Truthy(Get(data, "count")) ==> TotalTasks(st.state) == Get(data, "count"))
      && (!Truthy(Get(data, "count")) ==> TotalTasks(st.state) == JNum(0))
      && st.state.error == None && !st.state.loading
      && st.calls == [GetTasks(url)]
  {
  }

  /** A failed read leaves the list and the page data alone, records a
      non-empty error and reports it. */
  lemma {:induction false} FetchFailureKeepsList(s: TasksState, url: string, results: seq<ApiResult>)
    requires NextResult(results).ApiErr?
    ensures var st := FetchStep(s, url, results);
      && st.outcome.Err? && st.outcome.error != ""
      && st.state == s.(loading := false, error := Some(st.outcome.error))
  {
  }

  /** A changing action ends with `loading` false whatever its call and
      its re-read give. */
  lemma {:induction false} ChangeClearsLoading(s: TasksState, call: Request, r: ApiResult,
                                               rest: seq<ApiResult>, message: string, withData: bool,
                                               thrown: Json)
    ensures !AfterChange(s, call, r, rest, message, withData, thrown).state.loading
  {
    if r.ApiOk? {
      var f := FetchStep(s.(loading := true, error := None), ListPath, rest);
      assert !f.state.loading;
    }
  }

  /** Every action ends with `loading` false, except a refused blank text,
      which never set it. */
  lemma {:induction false} LoadingClearedAfterActions(s: TasksState, url: string, text: string,
                                                      id: Json, data: Json, task: Json,
                                                      results: seq<ApiResult>)
    ensures !FetchStep(s, url, results).state.loading
    ensures !Blank(text) ==> !CreateStep(s, text, results).state.loading
    ensures Blank(text) ==> CreateStep(s, text, results).state.loading == s.loading
    ensures !UpdateStep(s, id, data, results).state.loading
    ensures !DeleteStep(s, id, results).state.loading
    ensures !ToggleStep(s, task, results).state.loading
  {
    var r, later := NextResult(results), LaterResults(results);
    ChangeClearsLoading(s, CreateTaskCall(JObj(map["task" := JStr(text)])), r, later,
                        "Task created successfully", true, FieldError(r, "Failed to create task"));
    ChangeClearsLoading(s, UpdateTaskCall(id, data), r, later, "Task updated successfully", true,
                        FieldError(r, "Failed to update task"));
    ChangeClearsLoading(s, DeleteTaskCall(id), r, later, "Task deleted successfully", false,
                        JStr("Failed to delete task"));
    if !Nullish(task) {
      var done := Truthy(Get(task, "done"));
      ChangeClearsLoading(s, if done then MarkPendingCall(Get(task, "id")) else MarkCompleteCall(Get(task, "id")),
                          r, later, "Task marked as " + (if done then "pending" else "complete"), false,
                          JStr("Failed to update task status"));
    }
  }

  /** A done task is marked pending, any other task complete, and only that
      one call precedes the re-read. */
  lemma {:induction false} ToggleChoosesTransition(s: TasksState, task: Json, results: seq<ApiResult>)
    requires task.JObj?
    ensures var st := ToggleStep(s, task, results);
      && |st.calls| >= 1
      && st.calls[0] == (if Truthy(Get(task, "done")) then MarkPendingCall(Get(task, "id"))
                         else MarkCompleteCall(Get(task, "id")))
  {
  }

  /** A successful change is always followed by a re-read of the first page
      before the action reports success; a failed change makes no re-read. */
  lemma {:induction false} ChangeRefetchesList(s: TasksState, call: Request, r: ApiResult,
                                               rest: seq<ApiResult>, message: string, withData: bool,
                                               thrown: Json)
    ensures var st := AfterChange(s, call, r, rest, message, withData, thrown);
      && (st.outcome.Ok? <==> r.ApiOk?)
      && (r.ApiOk? ==> st.calls == [call, GetTasks(ListPath)] && st.rest == LaterResults(rest))
      && (r.ApiErr? ==> st.calls == [call] && st.rest == rest && st.state.tasks == s.tasks
                        && st.outcome.error != "")
  {
  }

  /** A change that succeeds while its re-read fails still reports success,
      but leaves the re-read's error in `error` and the old list on screen. */
  lemma SuccessWithFailedRefetch(s: TasksState, taskText: string, created: Json)
    requires !Blank(taskText)
    ensures var st := CreateStep(s, taskText, [ApiOk(created)]);
      && st.outcome == Ok(JStr("Task created successfully"), created)
      && st.state.error == Some("Failed to fetch tasks")
      && st.state.tasks == s.tasks
  {
    var results := [ApiOk(created)];
    assert NextResult(results) == ApiOk(created) && LaterResults(results) == [];
    var timeout := NextResult([]);
    assert Get(timeout.error, "detail") == JUndefined;
    assert CaughtMessage(JStr("Failed to fetch tasks"), GenericErrorMessage) == "Failed to fetch tasks";
    var f := FetchStep(s.(loading := true, error := None), ListPath, []);
    assert f.state.error == Some("Failed to fetch tasks") && f.state.tasks == s.tasks;
  }

  /** A server rejection of the text surfaces the first message the server
      gave for the `task` field. */
  lemma {:induction false} CreateShowsFieldMessage(s: TasksState, taskText: string, msg: string,
                                                   rest: seq<JsonValue.Json>)
    requires !Blank(taskText) && msg != ""
    ensures var body := JObj(map["task" := JArr([JStr(msg)] + rest)]);
      CreateStep(s, taskText, [ApiErr(body, Some(400))]).outcome == Err(msg)
  {
    var body := JObj(map["task" := JArr([JStr(msg)] + rest)]);
    assert At(Get(body, "task"), 0) == JStr(msg);
  }
}

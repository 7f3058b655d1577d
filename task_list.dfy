/**
 * The task list (src/components/TaskList.tsx): its list load (an array
 * guard, and an alert plus redirect on an auth-flavoured error), and the
 * create, edit and delete handlers, each followed by a full reload.
 *
 * The list reads the stored token but never changes the session, so its
 * handlers take the token slot's value rather than the session.
 */
module TaskList {
  import opened Wrappers
  import opened Http
  import Text
  import Api
  import Dashboard
  import EditTask

  const Expired := "Session expired. Please login again."

  /** `Array.isArray(data) ? data : []`. */
  function ListOf(data: Json): (tasks: seq<Json>)
    ensures data.JArr? ==> tasks == data.items
    ensures !data.JArr? ==> tasks == []
  {
    if data.JArr? then data.items else []
  }

  /** The task id of an edit: `updated._id` when truthy, else `updated.id`. */
  function EditId(updated: map<string, Json>): (id: Option<Json>)
    ensures Truthy(Field(JObj(updated), "_id")) ==> id == Some(updated["_id"])
    ensures !Truthy(Field(JObj(updated), "_id")) ==> id == Field(JObj(updated), "id")
  {
    if Truthy(Field(JObj(updated), "_id")) then Some(updated["_id"]) else Field(JObj(updated), "id")
  }

  /** `const { _id, ...updateData } = updated`: every field but `_id`, unchanged. */
  function WithoutId(updated: map<string, Json>): (body: map<string, Json>)
    ensures body.Keys == updated.Keys - {"_id"}
    ensures forall k :: k in body ==> body[k] == updated[k]
  {
    updated - {"_id"}
  }

  /** The path an edit or delete of `id` goes to: "/tasks/" and the id's text. */
  function TaskPath(id: Option<Json>): (p: string)
    ensures id.Some? && id.value.JStr? ==> p == "/tasks/" + id.value.s
  {
    "/tasks/" + Interpolate(id)
  }

  /** Saving an untouched edit form of a task with an `_id` targets that id,
      and the body it sends has no `_id`. */
  lemma EditSendsIdOnlyInPath(task: Json)
    requires EditTask.Editable(task) && Truthy(Field(task, "_id"))
    ensures var updated := EditTask.Payload(EditTask.Prefill(task));
      && EditId(updated) == Some(task.fields["_id"])
      && "_id" !in WithoutId(updated)
      && WithoutId(updated).Keys <= {"title", "description", "status", "dueDate"}
      && "status" in WithoutId(updated)
  {
    var updated := EditTask.Payload(EditTask.Prefill(task));
    assert updated["_id"] == task.fields["_id"];
    assert Field(JObj(updated), "_id") == Some(task.fields["_id"]);
  }

  /** The list's state and what it has done so far. */
  class TaskListView {
    var tasks: seq<Json>
    /** `editingTask`; the edit modal is shown while it is set. */
    var editingTask: Option<Json>
    var createOpen: bool
    /** The last `window.location.href` assigned. */
    var location: Option<string>
    var alerts: seq<string>
    /** Every request the list sent, in order. */
    var requests: seq<Request>

    constructor ()
      ensures tasks == [] && editingTask == None && !createOpen
      ensures location == None && alerts == [] && requests == []
    {
      tasks, editingTask, createOpen, location, alerts, requests := [], None, false, None, [], [];
    }

    /** The state a load leaves, given the result of its GET. */
    ghost predicate Loaded(r: Result<Json, string>, oldTasks: seq<Json>, oldAlerts: seq<string>, oldLocation: Option<string>)
      reads this
    {
      && tasks == (if r.Ok? then ListOf(r.value) else oldTasks)
      && (Dashboard.SessionExpired(r) ==> alerts == oldAlerts + [Expired] && location == Some("/login"))
      && (!Dashboard.SessionExpired(r) ==> alerts == oldAlerts && location == oldLocation)
    }

    /** `loadTasks`: one GET of "/tasks". Success sets `tasks` to the
        response when it is an array and to [] otherwise; an auth-flavoured
        error alerts and redirects to "/login" (the session is not touched);
        any other error changes nothing but the request log. */
    method LoadTasks(token: Option<string>, resp: Response)
      modifies this
      ensures var x := Api.Get("/tasks", token, resp);
        && requests == old(requests) + [x.request]
        && Loaded(x.result, old(tasks), old(alerts), old(location))
        && editingTask == old(editingTask) && createOpen == old(createOpen)
    {
      var x := Api.Get("/tasks", token, resp);
      requests := requests + [x.request];
      if x.result.Ok? {
        tasks := ListOf(x.result.value);
      } else if Dashboard.IsAuthError(x.result.error) {
        alerts := alerts + [Expired];
        location := Some("/login");
      }
    }

    /** `handleCreateTask(task)`: one POST to "/tasks"; success reloads the
        list and closes the modal, failure alerts and keeps everything else. */
    method CreateTask(token: Option<string>, task: map<string, Json>, postResp: Response, loadResp: Response)
      modifies this
      ensures var post := Api.Post("/tasks", token, JObj(task), postResp);
              var load := Api.Get("/tasks", token, loadResp);
        && editingTask == old(editingTask)
        && (post.result.Ok? ==>
              && requests == old(requests) + [post.request, load.request]
              && Loaded(load.result, old(tasks), old(alerts), old(location))
              && !createOpen)
        && (post.result.Err? ==>
              && requests == old(requests) + [post.request]
              && alerts == old(alerts) + [Text.Or(post.result.error, "Failed to create task")]
              && tasks == old(tasks) && createOpen == old(createOpen) && location == old(location))
    {
      var post := Api.Post("/tasks", token, JObj(task), postResp);
      requests := requests + [post.request];
      if post.result.Ok? {
        LoadTasks(token, loadResp);
        createOpen := false;
      } else {
        alerts := alerts + [Text.Or(post.result.error, "Failed to create task")];
      }
    }

    /** `handleEditTask(updated)`: one PUT to "/tasks/{id}" whose body is
        `updated` without `_id`; success reloads the list and clears
        `editingTask`, failure alerts and keeps the modal open. */
    method UpdateTask(token: Option<string>, updated: map<string, Json>, putResp: Response, loadResp: Response)
      modifies this
      ensures var put := Api.Put(TaskPath(EditId(updated)), token, JObj(WithoutId(updated)), putResp);
              var load := Api.Get("/tasks", token, loadResp);
        && createOpen == old(createOpen)
        && (put.result.Ok? ==>
              && requests == old(requests) + [put.request, load.request]
              && Loaded(load.result, old(tasks), old(alerts), old(location))
              && editingTask == None)
        && (put.result.Err? ==>
              && requests == old(requests) + [put.request]
              && alerts == old(alerts) + [Text.Or(put.result.error, "Failed to update task")]
              && tasks == old(tasks) && editingTask == old(editingTask) && location == old(location))
    {
      var taskId := EditId(updated);
      var updateData := WithoutId(updated);
      var put := Api.Put(TaskPath(taskId), token, JObj(updateData), putResp);
      requests := requests + [put.request];
      if put.result.Ok? {
        LoadTasks(token, loadResp);
        editingTask := None;
      } else {
        alerts := alerts + [Text.Or(put.result.error, "Failed to update task")];
      }
    }

    /** `handleDeleteTask(id)` with the user's answer to the confirmation.
        Declined: nothing is sent and nothing changes. Confirmed: one DELETE
        of "/tasks/{id}", then on success a reload, on failure an alert. */
    method DeleteTask(token: Option<string>, id: Option<Json>, confirmed: bool, deleteResp: Response, loadResp: Response)
      modifies this
      ensures editingTask == old(editingTask) && createOpen == old(createOpen)
      ensures !confirmed ==>
        tasks == old(tasks) && requests == old(requests) && alerts == old(alerts) && location == old(location)
      ensures confirmed ==>
        var del := Api.Delete(TaskPath(id), token, deleteResp);
        var load := Api.Get("/tasks", token, loadResp);
        && (del.result.Ok? ==>
              requests == old(requests) + [del.request, load.request]
              && Loaded(load.result, old(tasks), old(alerts), old(location)))
        && (del.result.Err? ==>
              && requests == old(requests) + [del.request]
              && alerts == old(alerts) + [Text.Or(del.result.error, "Failed to delete task")]
              && tasks == old(tasks) && location == old(location))
    {
      if !confirmed {
        return;
      }
      var del := Api.Delete(TaskPath(id), token, deleteResp);
      requests := requests + [del.request];
      if del.result.Ok? {
        LoadTasks(token, loadResp);
      } else {
        alerts := alerts + [Text.Or(del.result.error, "Failed to delete task")];
      }
    }

    /** The "+ New Task" button opens the create modal. */
    method OpenCreate()
      modifies this
      ensures createOpen
      ensures tasks == old(tasks) && editingTask == old(editingTask) && requests == old(requests)
      ensures alerts == old(alerts) && location == old(location)
    {
      createOpen := true;
    }

    /** A task's "Edit" button opens the edit modal on that task. */
    method OpenEdit(task: Json)
      modifies this
      ensures editingTask == Some(task)
      ensures tasks == old(tasks) && createOpen == old(createOpen) && requests == old(requests)
      ensures alerts == old(alerts) && location == old(location)
    {
      editingTask := Some(task);
    }

    /** The create modal's `onClose`. */
    method CloseCreate()
      modifies this
      ensures !createOpen
      ensures tasks == old(tasks) && editingTask == old(editingTask) && requests == old(requests)
      ensures alerts == old(alerts) && location == old(location)
    {
      createOpen := false;
    }

    /** The edit modal's `onClose`: the edit is abandoned. */
    method CloseEdit()
      modifies this
      ensures editingTask == None
      ensures tasks == old(tasks) && createOpen == old(createOpen) && requests == old(requests)
      ensures alerts == old(alerts) && location == old(location)
    {
      editingTask := None;
    }
  }
}

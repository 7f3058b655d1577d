/**
 * The dashboard (src/components/Dashboard.tsx): the task counts it shows,
 * its list load (an auth-flavoured error logs the session out), task
 * creation through the modal, and logout.
 */
module Dashboard {
  import opened Wrappers
  import opened Http
  import Text
  import Api
  import Auth

  /** `task.status === status`. */
  predicate HasStatus(task: Json, status: string) {
    Field(task, "status") == Some(JStr(status))
  }

  /** `tasks.filter(task => task.status === status).length`. */
  function CountStatus(tasks: seq<Json>, status: string): (n: nat)
    ensures n <= |tasks|
    ensures n == 0 <==> forall i :: 0 <= i < |tasks| ==> !HasStatus(tasks[i], status)
    ensures n == |tasks| <==> forall i :: 0 <= i < |tasks| ==> HasStatus(tasks[i], status)
  {
    if tasks == [] then 0
    else (if HasStatus(tasks[0], status) then 1 else 0) + CountStatus(tasks[1..], status)
  }

  /** The three figures of the stats grid. */
  datatype Stats = Stats(total: nat, completed: nat, pending: nat)

  /** `totalTasks`, `completedTasks` and `pendingTasks` for a list. */
  function StatsOf(tasks: seq<Json>): (s: Stats)
    ensures s.total == |tasks|
    ensures s.completed == CountStatus(tasks, "completed") && s.pending == CountStatus(tasks, "pending")
    ensures s.completed <= s.total && s.pending <= s.total
  {
    Stats(|tasks|, CountStatus(tasks, "completed"), CountStatus(tasks, "pending"))
  }

  /** No task is counted twice: completed and pending never add up to more than the total. */
  lemma {:induction false} CountsDisjoint(tasks: seq<Json>)
    ensures CountStatus(tasks, "completed") + CountStatus(tasks, "pending") <= |tasks|
  {
    if tasks != [] {
      CountsDisjoint(tasks[1..]);
    }
  }

  /** When every status is 'pending' or 'completed', as the `Task` type
      declares, the two counts add up to the total. */
  lemma {:induction false} CountsPartition(tasks: seq<Json>)
    requires forall i :: 0 <= i < |tasks| ==> HasStatus(tasks[i], "pending") || HasStatus(tasks[i], "completed")
    ensures CountStatus(tasks, "completed") + CountStatus(tasks, "pending") == |tasks|
  {
    if tasks != [] {
      CountsPartition(tasks[1..]);
    }
  }

  /** Appending a task adds one to the count of its own status and leaves
      every other count alone; with `CountStatus` of [] being 0 this fixes
      the count of any list. */
  lemma {:induction false} CountAppend(tasks: seq<Json>, t: Json, status: string)
    ensures CountStatus(tasks + [t], status) == CountStatus(tasks, status) + (if HasStatus(t, status) then 1 else 0)
  {
    if tasks == [] {
      assert tasks + [t] == [t];
    } else {
      assert (tasks + [t])[0] == tasks[0] && (tasks + [t])[1..] == tasks[1..] + [t];
      CountAppend(tasks[1..], t, status);
    }
  }

  /** A list that gains one pending task shows one more task in total, one
      more pending task and the same number of completed tasks. */
  lemma StatsAfterNewPendingTask(tasks: seq<Json>, t: Json)
    requires HasStatus(t, "pending")
    ensures var before, after := StatsOf(tasks), StatsOf(tasks + [t]);
      && after.total == before.total + 1
      && after.pending == before.pending + 1
      && after.completed == before.completed
  {
    CountAppend(tasks, t, "pending");
    CountAppend(tasks, t, "completed");
  }

  /** The heuristic both list views use to recognise an expired session:
      the error message contains "token" or "Access denied". */
  predicate IsAuthError(message: string)
    ensures IsAuthError(message) <==>
      (exists i: nat :: Text.OccursAt(message, "token", i)) ||
      (exists i: nat :: Text.OccursAt(message, "Access denied", i))
  {
    Text.Includes(message, "token") || Text.Includes(message, "Access denied")
  }

  /** A list load that failed with an auth-flavoured error. */
  predicate SessionExpired(r: Result<Json, string>) {
    r.Err? && IsAuthError(r.error)
  }

  /** The dashboard's state and what it has done so far. */
  class DashboardView {
    /** `tasks`: whatever the last successful load returned. */
    var tasks: Json
    var createOpen: bool
    /** The last navigation target. */
    var location: Option<string>
    var alerts: seq<string>
    /** Every request the dashboard sent, in order. */
    var requests: seq<Request>

    constructor ()
      ensures tasks == JArr([]) && !createOpen && location == None && alerts == [] && requests == []
    {
      tasks, createOpen, location, alerts, requests := JArr([]), false, None, [], [];
    }

    /** `loadTasks`: one GET of "/tasks" with the stored token. Success
        replaces `tasks` wholesale with the server's data; an auth-flavoured
        error logs out and navigates to "/login"; any other error changes
        nothing but the request log. */
    method LoadTasks(session: Auth.Session, resp: Response)
      modifies this, session
      ensures var x := Api.Get("/tasks", old(session.token), resp);
        && requests == old(requests) + [x.request]
        && tasks == (if x.result.Ok? then x.result.value else old(tasks))
        && createOpen == old(createOpen) && alerts == old(alerts)
        && (SessionExpired(x.result) ==>
              session.user == None && session.token == None && location == Some("/login"))
        && (!SessionExpired(x.result) ==>
              session.user == old(session.user) && session.token == old(session.token) && location == old(location))
    {
      var x := Api.Get("/tasks", session.token, resp);
      requests := requests + [x.request];
      if x.result.Ok? {
        tasks := x.result.value;
      } else if IsAuthError(x.result.error) {
        session.Logout();
        location := Some("/login");
      }
    }

    /** `handleCreateTask(taskData)`: one POST of the payload to "/tasks".
        Success reloads the list and then closes the modal; failure alerts
        the error (or the fallback), sends nothing more and keeps the modal. */
    method CreateTask(session: Auth.Session, taskData: map<string, Json>, postResp: Response, loadResp: Response)
      modifies this, session
      ensures var post := Api.Post("/tasks", old(session.token), JObj(taskData), postResp);
              var load := Api.Get("/tasks", old(session.token), loadResp);
        && (post.result.Ok? ==>
              && requests == old(requests) + [post.request, load.request]
              && tasks == (if load.result.Ok? then load.result.value else old(tasks))
              && !createOpen && alerts == old(alerts)
              && (SessionExpired(load.result) ==>
                    session.user == None && session.token == None && location == Some("/login"))
              && (!SessionExpired(load.result) ==>
                    session.user == old(session.user) && session.token == old(session.token) && location == old(location)))
        && (post.result.Err? ==>
              && requests == old(requests) + [post.request]
              && alerts == old(alerts) + [Text.Or(post.result.error, "Failed to create task")]
              && tasks == old(tasks) && createOpen == old(createOpen) && location == old(location)
              && session.user == old(session.user) && session.token == old(session.token))
    {
      var post := Api.Post("/tasks", session.token, JObj(taskData), postResp);
      requests := requests + [post.request];
      if post.result.Ok? {
        LoadTasks(session, loadResp);
        createOpen := false;
      } else {
        alerts := alerts + [Text.Or(post.result.error, "Failed to create task")];
      }
    }

    /** `handleLogout`: the session is cleared and the app goes to "/". */
    method Logout(session: Auth.Session)
      modifies this, session
      ensures session.user == None && session.token == None && !session.IsAuthenticated()
      ensures location == Some("/")
      ensures tasks == old(tasks) && createOpen == old(createOpen) && alerts == old(alerts) && requests == old(requests)
    {
      session.Logout();
      location := Some("/");
    }

    /** The "New Task" button opens the create modal. */
    method OpenCreate()
      modifies this
      ensures createOpen
      ensures tasks == old(tasks) && location == old(location) && alerts == old(alerts) && requests == old(requests)
    {
      createOpen := true;
    }

    /** The create modal's `onClose`. */
    method CloseCreate()
      modifies this
      ensures !createOpen
      ensures tasks == old(tasks) && location == old(location) && alerts == old(alerts) && requests == old(requests)
    {
      createOpen := false;
    }
  }
}

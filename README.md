# Task manager client: a Dafny model

This project models the behaviour of a small React client for a personal
task list. Users register, log in, and create, edit and delete their tasks
on a REST backend. The model covers:

- the auth context: the session state (an in-memory user and the persisted
  `"token"` slot of local storage) with `register`, `login`, `logout` and
  `isAuthenticated`;
- the `api` fetch wrapper: how each request is built (URL, method, headers,
  JSON body) and how each response becomes a value or an error;
- the create and edit modals: form prefill, validation, payload building
  and the disabled predicates of their buttons;
- the register and login pages: validation order, the single call, and what
  each result leads to (an error message, an alert, a navigation);
- the dashboard and the task list: the derived counts, list loading with
  its auth-error heuristic, and the create, edit and delete handlers.

Nothing here talks to a network, a browser or a router. A server answer is
an input value `Http.Response`: the fetch rejected, or it produced `ok` and
a body that parsed to a `Json` value or failed to parse. Each request is an
output `Http.Request` record, appended to the component's `requests` log.
Navigation is recorded as the last target path (`location`). `alert` is
recorded as a message appended to `alerts`. `confirm` is a boolean input.

JavaScript semantics are written out where the code depends on them:

- truthiness (`Http.Truthy`);
- `String(v)`, which is also the message of `new Error(v)` and what
  `localStorage.setItem` stores (`Http.ToText`; numbers agree up to
  magnitude 2^53);
- template interpolation (`Http.Interpolate`);
- reading a property of `null`, which throws (`Http.NullRead`);
- `trim` over ECMAScript's full white-space set (`Text.Trim`);
- `includes` (`Text.Includes`);
- `split("@")[0]` (`Text.BeforeFirst`);
- the UTF-16 `length` (`Text.Utf16Length`).

A property whose value would be `undefined` is modelled as an absent key.
That is also what `JSON.stringify` sends.

The two base URLs are kept separate, as in the code. `Auth.AuthBase` is the
local backend used by the auth context. `Api.ApiBase` is the deployed
backend used by `api`.

Each component's handlers are classes with `modifies` clauses:
`Auth.Session`, `RegisterPage.RegisterView`, `LoginPage.LoginView`,
`Dashboard.DashboardView` and `TaskList.TaskListView`. Each handler runs as
one atomic step, with the server's answers as parameters. Each handler's
`ensures` gives the whole new state in terms of the pure functions. The
properties themselves are proved about those pure functions.

Notes on the code's behaviour:

- The task list does not log out on an auth-flavoured load error. It alerts
  and redirects only (src/components/TaskList.tsx:22-25). The dashboard does
  log out.
- No task request is held back when no token is stored. The request is sent
  without an `Authorization` header (src/utils/api.ts:15-17).
- The session has no "authenticating" state. The context holds only `user`
  and the token slot.
- That a deleted task is missing from the list afterwards is up to the
  server. The client replaces its list with whatever the reload returns.
  Likewise, the counts go up after a create only if the reload returns the
  new task. `Dashboard.StatsAfterNewPendingTask` states what one more
  pending task does to the counts.

## Model

| member | source | states |
|---|---|---|
| Text.Trim | src/components/CreateTaskModal.tsx:13-21 | `trim()` gives "" exactly when the text is all white space. Otherwise it gives a slice of the text that neither starts nor ends with white space, and everything before and after that slice is white space. |
| Text.Includes | src/components/Dashboard.tsx:70 | `includes(sub)` is true iff `sub` occurs at some index of the message. |
| Text.BeforeFirst | src/contexts/AuthContext.tsx:60 | `split(sep)[0]` is the prefix before the first separator: it has no separator, and the character after it (if any) is the separator. |
| Text.Utf16Length | src/components/Register.tsx:30 | `length` counts UTF-16 units: a single character counts its units (one inside the Basic Multilingual Plane, two outside). The total lies between the number of code points and twice that, and equals it when every character is in the Basic Multilingual Plane. |
| Text.Utf16LengthAppend | src/components/Register.tsx:30 | The length of a concatenation is the sum of the two lengths, so with the one-character values the length of every text is fixed. |
| Api.Headers | src/utils/api.ts:8-20 | `Content-Type: application/json` is always present. `Authorization` is present iff the stored token is non-empty, and then it equals the token verbatim, with no prefix. There are no other headers. |
| Api.ErrorText | src/utils/api.ts:28-31 | A non-ok body's truthy `message`, as text, else the fallback. A `null` body throws on the property read. |
| Api.Settle | src/utils/api.ts:28-33 | The result is a value iff the response is ok and its body parsed, and then it is the parsed body unchanged. Failures carry the fetch error, the parse error or the server message chain. |
| Api.Get | src/utils/api.ts:22-34 | One GET to `ApiBase + path` with `Headers(token)` and no body; fallback "Failed to fetch". |
| Api.Post | src/utils/api.ts:36-49 | One POST to `ApiBase + path` carrying the body; fallback "Failed to create". |
| Api.Put | src/utils/api.ts:51-64 | One PUT to `ApiBase + path` carrying the body; fallback "Failed to update". |
| Api.Delete | src/utils/api.ts:66-78 | One DELETE to `ApiBase + path` with no body; fallback "Failed to delete". |
| Api.RequestsCarryToken | src/utils/api.ts:9-26 | With a non-empty token stored, all four calls go to `ApiBase + path` with the JSON content type and the raw token as `Authorization`. |
| Api.RequestsOmitMissingToken | src/utils/api.ts:9-26 | With no token stored, or an empty one, all four calls are still sent to `ApiBase + path`, with the JSON content type as their only header. |
| Auth.RegisterRequest | src/contexts/AuthContext.tsx:15-19 | Register posts `{name, email, password}` to the local backend, with no token header. |
| Auth.LoginRequest | src/contexts/AuthContext.tsx:39-43 | Login posts `{email, password}` to the local backend, with no token header. |
| Auth.ServerError | src/contexts/AuthContext.tsx:24 | The message chain `data.message`, then `data.error`, then the fallback; a truthy value is turned into text. |
| Auth.RegisterOutcome | src/contexts/AuthContext.tsx:13-32 | Success iff the response is ok with a non-null parsed body, and then the server's `message` is passed on. Every other case is a failure: the fetch or parse error, the null-read error, or the chain ending in "Registration failed". Nothing escapes as an exception. |
| Auth.LoginOutcome | src/contexts/AuthContext.tsx:37-66 | Granted iff the response is ok with a truthy `token`, and then it keeps the token's text. An ok response with no token is denied with "No token received from server". A non-ok one is denied with the chain ending in "Login failed". A fetch or parse error is denied with its own message. |
| Auth.DisplayName | src/contexts/AuthContext.tsx:60 | The user name is the email's text before its first '@': it contains no '@' and the email begins with it. |
| Auth.Session.constructor | src/contexts/AuthContext.tsx:8 | On page load no user is held and the token slot keeps what storage had. `isAuthenticated()` is then true iff that token is non-empty. |
| Auth.Session.Login | src/contexts/AuthContext.tsx:52-62 | When granted, the slot holds exactly the token and the user is `{name: email prefix, email}`. When denied, neither the slot nor the user changes. A successful result implies `isAuthenticated()`. |
| Auth.Session.IsAuthenticated | src/contexts/AuthContext.tsx:79 | `!!user \|\| !!localStorage.getItem("token")`: authenticated iff a user is held or the stored token is a truthy string, so an empty stored token does not authenticate. |
| Auth.Session.Logout | src/contexts/AuthContext.tsx:71-74 | The slot is empty and the user is null, whatever the old state, so calling it twice is the same as once. `isAuthenticated()` is then false. |
| Auth.GrantedTokenIsVerbatim | src/contexts/AuthContext.tsx:52-57 | A non-empty string token is stored exactly as the server sent it. |
| Auth.LoginScenario | src/contexts/AuthContext.tsx:52-60 | Logging in as a@b.com, answered with token "abc123", stores "abc123" and names the user "a". |
| Auth.LoginTokenIsSentVerbatim | src/utils/api.ts:14-17 | After a granted login, the next request's `Authorization` is exactly the stored token text; an empty token text sends no header. |
| CreateTask.Submit | src/components/CreateTaskModal.tsx:11-30 | A title that trims to "" is refused with "Please enter a task title" and nothing is sent. Otherwise the payload has exactly the keys title, description and status, plus `dueDate` iff one was entered. Title and description are trimmed, status defaults to "pending", and `dueDate` is kept verbatim. |
| CreateTask.SubmitDisabled | src/components/CreateTaskModal.tsx:82 | The submit button is disabled iff the title is empty or white space only. |
| CreateTask.DisabledExactlyWhenRejected | src/components/CreateTaskModal.tsx:82 | The submit button is disabled iff the handler would refuse the form. |
| CreateTask.InitialFormIsRefused | src/components/CreateTaskModal.tsx:4-9 | The initial form (status "pending") is refused until a title is entered. |
| CreateTask.BuyMilkScenario | src/components/CreateTaskModal.tsx:19-27 | "Buy milk" with no due date sends `{title, description: "", status: "pending"}`, with no `dueDate` key. |
| EditTask.OrPending | src/components/EditTaskModal.tsx:8 | `v \|\| "pending"` keeps a truthy status and otherwise gives "pending"; the result is always truthy. |
| EditTask.Prefill | src/components/EditTaskModal.tsx:4-10 | `_id`, title and description are copied. Status defaults to "pending" when falsy. The due date becomes its first ten characters, or all of it when shorter, or "" when absent. |
| EditTask.Payload | src/components/EditTaskModal.tsx:12-27 | The payload keeps `_id`, the untrimmed title and description, and the status defaulting to "pending". It has `dueDate` iff the form's is non-empty, and no other keys. Every form gives a payload: the handler has no title check. |
| EditTask.SaveUntouched | src/components/EditTaskModal.tsx:4-24 | Saving an untouched form sends the task's own `_id`, title, description and status. It sends a due date iff the task had a truthy one, and then its first ten characters. |
| EditTask.SaveDisabled | src/components/EditTaskModal.tsx:91 | The save button is disabled iff the title is empty or white space only. |
| RegisterPage.Validate | src/components/Register.tsx:25-33 | Different passwords give "Passwords do not match", even when the password is also short. Otherwise a UTF-16 length below 6 gives "Password must be at least 6 characters". The result is empty iff both checks pass. |
| RegisterPage.EmojiPasswords | src/components/Register.tsx:30-33 | A password of three emoji has length 6 and passes the check; one of two emoji has length 4 and is rejected as too short. |
| RegisterPage.MismatchReportedFirst | src/components/Register.tsx:25-33 | When both checks fail, the mismatch message is the one shown. |
| RegisterPage.SuccessAlert | src/components/Register.tsx:40 | The alert shows the server message when truthy, else "Registration successful! Please login.". |
| RegisterPage.RegisterView.constructor | src/components/Register.tsx:18-19 | The page starts with no error and not loading. |
| RegisterPage.RegisterView.Submit | src/components/Register.tsx:21-50 | The error is cleared first. A failed check shows its message and sends nothing. Otherwise exactly one register request with (name, email, password) is sent. Success alerts and navigates to "/login". Failure shows `result.error` or the default and does not navigate. `loading` ends false. |
| LoginPage.LoginView.constructor | src/components/Login.tsx:16-17 | The page starts with no error and not loading. |
| LoginPage.LoginView.Submit | src/components/Login.tsx:19-36 | There is no client check and exactly one login request. Success navigates to "/dashboard" with the session authenticated, holding the token and the user `{name: email prefix, email}`. Failure shows `result.error` or the default and leaves the session as it was. `loading` ends false. |
| Dashboard.CountStatus | src/components/Dashboard.tsx:31-32 | A count of tasks with a status is at most the total. It is 0 iff no task has that status and the total iff every task has it. |
| Dashboard.StatsOf | src/components/Dashboard.tsx:30-32 | The total is the list length; completed and pending are the counts of those statuses, each at most the total. |
| Dashboard.CountsDisjoint | src/components/Dashboard.tsx:31-32 | Completed plus pending never exceeds the total. |
| Dashboard.CountsPartition | src/components/Dashboard.tsx:15 | When every status is 'pending' or 'completed', as the `Task` type declares, completed plus pending equals the total. |
| Dashboard.CountAppend | src/components/Dashboard.tsx:31-32 | Appending a task adds one to the count of its own status and leaves the count unchanged otherwise. With the count of [] being 0, this fixes the count of every list. |
| Dashboard.StatsAfterNewPendingTask | src/components/Dashboard.tsx:30-32 | A list that gains one pending task shows one more task in total, one more pending task and as many completed tasks as before. |
| Dashboard.IsAuthError | src/components/Dashboard.tsx:70 | The heuristic (also used at src/components/TaskList.tsx:22) matches iff "token" or "Access denied" occurs somewhere in the message. |
| Dashboard.DashboardView.constructor | src/components/Dashboard.tsx:23-24 | The dashboard starts with an empty list and the modal closed. |
| Dashboard.DashboardView.LoadTasks | src/components/Dashboard.tsx:64-75 | One GET of "/tasks". Success replaces `tasks` wholesale with the data. An error matching the heuristic logs out and navigates to "/login". Any other error leaves the tasks, the session and the location unchanged. |
| Dashboard.DashboardView.CreateTask | src/components/Dashboard.tsx:78-87 | A successful POST is followed by one reload and then the modal closes. A failed POST alerts its message or "Failed to create task", sends nothing more and keeps the modal open. |
| Dashboard.DashboardView.Logout | src/components/Dashboard.tsx:58-61 | The session is cleared and the app navigates to "/". |
| Dashboard.DashboardView.OpenCreate | src/components/Dashboard.tsx:157 | The button opens the create modal and changes nothing else. |
| Dashboard.DashboardView.CloseCreate | src/components/Dashboard.tsx:171 | Closing the modal changes nothing else. |
| TaskList.ListOf | src/components/TaskList.tsx:18 | The loaded list is the response if it is an array, else []. |
| TaskList.EditId | src/components/TaskList.tsx:53 | The edit id is `updated._id` if truthy, else `updated.id`. |
| TaskList.WithoutId | src/components/TaskList.tsx:56 | The body has every key of `updated` except `_id`, each with its value unchanged. |
| TaskList.TaskPath | src/components/TaskList.tsx:58 | A string id goes verbatim after "/tasks/". |
| TaskList.EditSendsIdOnlyInPath | src/components/TaskList.tsx:53-58 | Saving an untouched edit form of a task with an `_id` targets that id. The body then has no `_id` and only the title, description, status and due date keys. |
| TaskList.TaskListView.constructor | src/components/TaskList.tsx:7-9 | The list starts empty, with no task being edited and the modal closed. |
| TaskList.TaskListView.LoadTasks | src/components/TaskList.tsx:14-27 | One GET of "/tasks". Success sets `tasks` to the array, or [] when the data is not an array. An error matching the heuristic alerts "Session expired. Please login again." and redirects to "/login", without touching the session. Otherwise nothing changes but the request log. |
| TaskList.TaskListView.CreateTask | src/components/TaskList.tsx:36-45 | A successful POST is followed by exactly one reload and the modal closes. A failure alerts and changes nothing else. |
| TaskList.TaskListView.UpdateTask | src/components/TaskList.tsx:50-65 | One PUT to "/tasks/{id}" with the `_id`-less body. Success reloads and clears `editingTask`. Failure alerts "Failed to update task" (or the message) and keeps `editingTask`. |
| TaskList.TaskListView.DeleteTask | src/components/TaskList.tsx:70-81 | Declined confirmation sends nothing and changes nothing. Confirmed: one DELETE of "/tasks/{id}", then on success one reload, on failure an alert. |
| TaskList.TaskListView.OpenCreate | src/components/TaskList.tsx:89 | The button opens the create modal and changes nothing else. |
| TaskList.TaskListView.OpenEdit | src/components/TaskList.tsx:126 | The Edit button sets `editingTask` to that task and changes nothing else. |
| TaskList.TaskListView.CloseCreate | src/components/TaskList.tsx:146 | Closing the create modal changes nothing else. |
| TaskList.TaskListView.CloseEdit | src/components/TaskList.tsx:155 | Closing the edit modal clears `editingTask` and changes nothing else. |

## Left out

- Rendering: all JSX, styling, icons and images (each component's `return (...)` block). The button handlers that open and close modals are kept.
- The form inputs' `onChange` handlers (`setForm`, `setFormData`). A form is an input value of the submit handler.
- `fetch`, `res.json()` and `JSON.stringify`. A response is an input value and a request a record; no JSON text is encoded or decoded.
- JSON numbers with a fraction or an exponent. `Http.Json` numbers are integers.
- Http.ToText: `Http.Json` integers are exact and unbounded. JavaScript parses JSON numbers as doubles, so above 2^53 it rounds them, and from 1e21 up `String` prints them with an exponent. `Http.ToText` prints the exact decimal digits, so it differs from `String` there. For example, a login token of 2^60 is stored by the source as "1152921504606847000" and by the model as "1152921504606846976".
- `console.error` calls. They are logging only.
- Async interleaving and overlapping reloads. Each handler is one atomic step, and nothing is claimed about concurrent completion.
- The intermediate render while `loading` is true. Only the state after a submit is stated.
- The `catch` branches of the register and login pages (src/components/Register.tsx:45-46, src/components/Login.tsx:31-32). `register` and `login` never reject, so these branches cannot run.
- `new Date(...).toLocaleDateString()` (src/components/TaskList.tsx:118). It is locale-dependent date formatting.
- The wording of the TypeError for reading a property of `null` depends on the JavaScript engine. `Http.NullRead` uses V8's wording.
- src/App.tsx (routing). The `ProtectedRoute` it uses is not part of this model. src/components/Welcome.tsx and src/components/Unauthorized.tsx only hold navigation buttons.
- The user's name shown in the dashboard header (`user?.name`) is presentation.
- EditTask.Prefill: requires the task to be truthy, and a truthy `dueDate` to be a string. The source throws on a truthy non-string due date, except that an array (which also has `slice`) would pass.
- EditTask.Prefill: `slice(0, 10)` counts UTF-16 units and the model counts code points. The two differ only for characters outside the Basic Multilingual Plane.
- EditTask.SaveDisabled: requires the title to be a string, because the source calls `trim` on it during render.
- Dashboard.StatsOf: takes the list as a sequence. When the last load returned a non-array, the source's render throws on `filter`.
- Dashboard.CountStatus: counts a `null` element as having no status. The source's `filter` would throw on it.

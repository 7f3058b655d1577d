/**
 * The edit-task modal (src/components/EditTaskModal.tsx): the form it
 * fills from the task being edited, the payload its save handler hands to
 * `onSave`, and when its save button is disabled.
 */
module EditTask {
  import opened Wrappers
  import opened Http
  import Text

  /** The form state. `_id`, `title` and `description` are copied from the
      task as they are (None when the task lacks them); `status` is a value
      of the task or the text chosen in the select. */
  datatype EditForm = EditForm(id: Option<Json>, title: Option<Json>, description: Option<Json>, status: Json, dueDate: string)

  /** JavaScript's `v || "pending"`. */
  function OrPending(v: Option<Json>): (r: Json)
    ensures Truthy(v) ==> r == v.value
    ensures !Truthy(v) ==> r == JStr("pending")
    ensures Truthy(Some(r))
  {
    if Truthy(v) then v.value else JStr("pending")
  }

  /** The task can be shown in the modal: it is truthy (the list only opens
      the modal for a truthy `editingTask`) and a truthy `dueDate` is a
      string, since `slice` is called on it. */
  predicate Editable(task: Json) {
    Truthy(Some(task)) && (Truthy(Field(task, "dueDate")) ==> task.fields["dueDate"].JStr?)
  }

  /** The initial form: `_id`, title and description copied, status
      defaulting to "pending" when falsy, and the due date cut to its first
      ten characters (the whole date when shorter), or "" when absent. */
  function Prefill(task: Json): (f: EditForm)
    requires Editable(task)
    ensures f.id == Field(task, "_id") && f.title == Field(task, "title") && f.description == Field(task, "description")
    ensures f.status == OrPending(Field(task, "status"))
    ensures !Truthy(Field(task, "dueDate")) ==> f.dueDate == ""
    ensures Truthy(Field(task, "dueDate")) ==>
      var d := task.fields["dueDate"].s;
      |f.dueDate| == (if |d| < 10 then |d| else 10) && f.dueDate == d[..|f.dueDate|]
  {
    var dueDate :=
      if Truthy(Field(task, "dueDate")) then
        var d := task.fields["dueDate"].s; d[..if |d| < 10 then |d| else 10]
      else "";
    EditForm(Field(task, "_id"), Field(task, "title"), Field(task, "description"),
             OrPending(Field(task, "status")), dueDate)
  }

  /** Adds `key: v` to an object unless `v` is undefined (JSON drops such keys). */
  function Put(m: map<string, Json>, key: string, v: Option<Json>): (r: map<string, Json>)
    ensures v.Some? ==> r == m[key := v.value]
    ensures v.None? ==> r == m
  {
    if v.Some? then m[key := v.value] else m
  }

  /** `handleSubmit`: the payload keeps `_id` for the list to put in the
      URL, title and description untrimmed, the status defaulting to
      "pending", and `dueDate` only when the form's is non-empty. There is
      no title check: every form gives a payload. */
  function Payload(form: EditForm): (u: map<string, Json>)
    ensures u.Keys <= {"_id", "title", "description", "status", "dueDate"}
    ensures "status" in u && u["status"] == OrPending(Some(form.status))
    ensures ("_id" in u <==> form.id.Some?) && ("_id" in u ==> u["_id"] == form.id.value)
    ensures ("title" in u <==> form.title.Some?) && ("title" in u ==> u["title"] == form.title.value)
    ensures ("description" in u <==> form.description.Some?) &&
            ("description" in u ==> u["description"] == form.description.value)
    ensures ("dueDate" in u <==> form.dueDate != "") && ("dueDate" in u ==> u["dueDate"] == JStr(form.dueDate))
  {
    var updateData := Put(Put(Put(map["status" := OrPending(Some(form.status))],
                                  "_id", form.id), "title", form.title), "description", form.description);
    if form.dueDate != "" then updateData["dueDate" := JStr(form.dueDate)] else updateData
  }

  /** The save button's `disabled`: the title trims to "" (the title must
      be text, as `trim` is called on it). */
  predicate SaveDisabled(form: EditForm)
    requires form.title.Some? && form.title.value.JStr?
    ensures SaveDisabled(form) <==> Text.AllSpace(form.title.value.s)
  {
    Text.Trim(form.title.value.s) == ""
  }

  /** Saving an untouched form sends back the task's own `_id`, title,
      description and status, and the first ten characters of its due date. */
  lemma SaveUntouched(task: Json)
    requires Editable(task)
    ensures var u := Payload(Prefill(task));
      && (Field(task, "_id").Some? ==> u["_id"] == task.fields["_id"])
      && (Field(task, "title").Some? ==> u["title"] == task.fields["title"])
      && (Field(task, "description").Some? ==> u["description"] == task.fields["description"])
      && u["status"] == OrPending(Field(task, "status"))
      && ("dueDate" in u <==> Truthy(Field(task, "dueDate")))
      && ("dueDate" in u ==>
            var d := task.fields["dueDate"].s;
            u["dueDate"] == JStr(d[..if |d| < 10 then |d| else 10]))
  {
  }
}

/**
 * The create-task modal (src/components/CreateTaskModal.tsx): its form,
 * the title guard of its submit handler, the payload it hands to
 * `onCreate`, and when its submit button is disabled.
 */
module CreateTask {
  import opened Http
  import Text

  /** The form state; every field is the text of an input. */
  datatype CreateForm = CreateForm(title: string, description: string, status: string, dueDate: string)

  /** The form the modal opens with: empty texts and status "pending". */
  const InitialForm := CreateForm("", "", "pending", "")

  /** What `handleSubmit` does: alert and return, or call `onCreate` with a payload. */
  datatype Submission = Rejected(alert: string) | Submitted(taskData: map<string, Json>)

  /** `handleSubmit`: a title that trims to "" is refused with an alert;
      otherwise the payload holds the trimmed title and description, the
      status (defaulting to "pending"), and `dueDate` only when one was
      entered, verbatim. It has no other keys. */
  function Submit(form: CreateForm): (r: Submission)
    ensures r.Rejected? <==> Text.AllSpace(form.title)
    ensures r.Rejected? ==> r.alert == "Please enter a task title"
    ensures r.Submitted? ==>
      r.taskData.Keys == {"title", "description", "status"} + (if form.dueDate != "" then {"dueDate"} else {})
    ensures r.Submitted? ==>
      && r.taskData["title"] == JStr(Text.Trim(form.title))
      && r.taskData["description"] == JStr(Text.Trim(form.description))
      && r.taskData["status"] == JStr(if form.status != "" then form.status else "pending")
    ensures r.Submitted? && form.dueDate != "" ==> r.taskData["dueDate"] == JStr(form.dueDate)
    ensures r.Submitted? ==> r.taskData["title"].s != "" && !Text.IsSpace(r.taskData["title"].s[0])
  {
    if Text.Trim(form.title) == [] then Rejected("Please enter a task title")
    else
      var taskData := map[
        "title" := JStr(Text.Trim(form.title)),
        "description" := JStr(Text.Trim(form.description)),
        "status" := JStr(if form.status != "" then form.status else "pending")];
      Submitted(if form.dueDate != "" then taskData["dueDate" := JStr(form.dueDate)] else taskData)
  }

  /** The submit button's `disabled`: the title trims to "". */
  predicate SubmitDisabled(form: CreateForm)
    ensures SubmitDisabled(form) <==> Text.AllSpace(form.title)
  {
    Text.Trim(form.title) == ""
  }

  /** The button is disabled exactly for the forms the handler would refuse,
      so a click that reaches `handleSubmit` always submits. */
  lemma DisabledExactlyWhenRejected(form: CreateForm)
    ensures SubmitDisabled(form) <==> Submit(form).Rejected?
  {
  }

  /** The form the modal opens with is refused. */
  lemma InitialFormIsRefused()
    ensures Submit(InitialForm) == Rejected("Please enter a task title")
  {
    assert Text.AllSpace(InitialForm.title);
  }

  /** A task "Buy milk" with no description and no due date is sent as
      exactly {title: "Buy milk", description: "", status: "pending"}: no
      `dueDate` key at all. */
  lemma BuyMilkScenario()
    ensures Submit(InitialForm.(title := "Buy milk")) ==
      Submitted(map["title" := JStr("Buy milk"), "description" := JStr(""), "status" := JStr("pending")])
  {
    var milk := "Buy milk";
    assert !Text.IsSpace('B') && !Text.IsSpace('k');
    assert Text.SkipSpaces(milk, 0) == 0;
    assert Text.DropTrailingSpaces(milk, 0, |milk|) == |milk|;
    assert Text.Trim(milk) == milk[0..|milk|] == milk;
    assert Text.Trim("") == "";
    assert !Text.AllSpace(milk);
  }
}

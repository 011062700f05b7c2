/**
 * The add-task card (AddTaskForm.tsx): two buttons switch between the manual
 * form and the voice agent, so that at most one of them is shown; submitting a
 * non-blank title sends a new task to the backlog's "todo" column, and a
 * successful creation resets the draft and closes both panels.
 */
module AddTaskForm {
  import opened Common
  import Text

  /** The form's fields. */
  datatype TaskDraft = TaskDraft(title: string, duration: int, importance: string, scheduledTime: string)

  /** The draft the form starts with and returns to after a creation. */
  const EmptyDraft := TaskDraft("", 30, "medium", "")

  /** The body of the create request; `scheduledTime` is None when it is left out. */
  datatype CreatePayload = CreatePayload(
    title: string, duration: int, importance: string, status: string, scheduledTime: Option<string>)

  /** handleSubmit's validation and payload: nothing for a title that trims to
      empty; otherwise the fields as typed (the title is not trimmed), status
      "todo", and a scheduled time only when one was entered. */
  function FormPayload(task: TaskDraft): (r: Option<CreatePayload>)
    ensures r.None? <==> Text.IsBlank(task.title)
    ensures r.Some? ==>
      && r.value.title == task.title
      && r.value.duration == task.duration
      && r.value.importance == task.importance
      && r.value.status == "todo"
      && (r.value.scheduledTime.Some? <==> task.scheduledTime != "")
      && (r.value.scheduledTime.Some? ==> r.value.scheduledTime.value == task.scheduledTime)
  {
    if Text.IsBlank(task.title) then None
    else Some(CreatePayload(task.title, task.duration, task.importance, "todo",
      if task.scheduledTime != "" then Some(task.scheduledTime) else None))
  }

  /** Exactly the titles made only of whitespace send nothing. */
  lemma WhitespaceTitleSendsNothing(task: TaskDraft)
    ensures FormPayload(task).None? <==> forall i :: 0 <= i < |task.title| ==> Text.IsJsWhitespace(task.title[i])
  {
    Text.BlankIffAllWhitespace(task.title);
  }

  /** The draft the form starts with sends nothing. */
  lemma EmptyDraftSendsNothing()
    ensures FormPayload(EmptyDraft).None?
  {
    assert Text.TrimStart(EmptyDraft.title) == "";
  }

  /** The clicks that move the panels, and what each does to the pair
      (isOpen, showVoiceAgent): Add hides the voice agent and toggles the form,
      Voice closes the form and toggles the voice agent, Cancel closes the form,
      and a created task closes both. */
  datatype Click = AddClick | VoiceClick | CancelClick | Created

  function Panels(state: (bool, bool), c: Click): (bool, bool) {
    match c
    case AddClick => (!state.0, false)
    case VoiceClick => (false, !state.1)
    case CancelClick => (false, state.1)
    case Created => (false, false)
  }

  /** The card: the draft, whether the manual form is open, whether the voice agent
      is shown, and the create requests sent. */
  class Form {
    var task: TaskDraft
    var isOpen: bool
    var showVoiceAgent: bool
    var requests: seq<CreatePayload>

    /** The manual form and the voice agent are never shown together. */
    predicate Exclusive()
      reads this
    {
      !(isOpen && showVoiceAgent)
    }

    constructor ()
      ensures task == EmptyDraft && !isOpen && !showVoiceAgent && requests == []
      ensures Exclusive()
    {
      task := EmptyDraft;
      isOpen := false;
      showVoiceAgent := false;
      requests := [];
    }

    /** handleAddTaskClick: hide the voice agent and toggle the form. */
    method AddTaskClick()
      modifies `isOpen, `showVoiceAgent
      ensures (isOpen, showVoiceAgent) == Panels((old(isOpen), old(showVoiceAgent)), AddClick)
      ensures Exclusive()
    {
      showVoiceAgent := false;
      isOpen := !isOpen;
    }

    /** handleVoiceInputClick: close the form and toggle the voice agent. */
    method VoiceInputClick()
      modifies `isOpen, `showVoiceAgent
      ensures (isOpen, showVoiceAgent) == Panels((old(isOpen), old(showVoiceAgent)), VoiceClick)
      ensures Exclusive()
    {
      isOpen := false;
      showVoiceAgent := !showVoiceAgent;
    }

    /** The Cancel button closes the form and leaves the draft as it is. */
    method Cancel()
      modifies `isOpen
      ensures (isOpen, showVoiceAgent) == Panels((old(isOpen), old(showVoiceAgent)), CancelClick)
      ensures Exclusive()
    {
      isOpen := false;
    }

    /** The inputs: each changes its own field of the draft. */
    method EditTitle(value: string)
      modifies `task
      ensures task == old(task).(title := value)
    {
      task := task.(title := value);
    }

    method EditScheduledTime(value: string)
      modifies `task
      ensures task == old(task).(scheduledTime := value)
    {
      task := task.(scheduledTime := value);
    }

    method EditDuration(value: int)
      modifies `task
      ensures task == old(task).(duration := value)
    {
      task := task.(duration := value);
    }

    method EditImportance(value: string)
      modifies `task
      ensures task == old(task).(importance := value)
    {
      task := task.(importance := value);
    }

    /** handleSubmit: a request with the draft's payload, or nothing for a blank
        title (which only shows an error). */
    method Submit()
      modifies `requests
      ensures FormPayload(task).Some? ==> requests == old(requests) + [FormPayload(task).value]
      ensures FormPayload(task).None? ==> requests == old(requests)
    {
      var payload := FormPayload(task);
      if payload.Some? {
        requests := requests + [payload.value];
      }
    }

    /** The creation succeeded: the draft is reset and both panels close. */
    method OnCreated()
      modifies `task, `isOpen, `showVoiceAgent
      ensures task == EmptyDraft
      ensures (isOpen, showVoiceAgent) == Panels((old(isOpen), old(showVoiceAgent)), Created)
      ensures Exclusive()
    {
      task := EmptyDraft;
      isOpen := false;
      showVoiceAgent := false;
    }
  }

  function PanelsAfter(state: (bool, bool), clicks: seq<Click>): (bool, bool) {
    if |clicks| == 0 then state else Panels(PanelsAfter(state, clicks[..|clicks| - 1]), clicks[|clicks| - 1])
  }

  /** One click from any state leaves at most one panel showing: each button
      hides the other panel. */
  lemma ClickKeepsPanelsExclusive(state: (bool, bool), c: Click)
    ensures var s := Panels(state, c); !(s.0 && s.1)
  {
  }

  /** Starting from both panels closed, no sequence of clicks shows both; and
      clicking Add twice in a row returns the form to where it was with the voice
      agent hidden. */
  lemma NeverBothOpen(clicks: seq<Click>)
    ensures var s := PanelsAfter((false, false), clicks); !(s.0 && s.1)
    ensures var s := PanelsAfter((false, false), clicks);
      PanelsAfter((false, false), clicks + [AddClick, AddClick]) == (s.0, false)
  {
    if |clicks| > 0 {
      ClickKeepsPanelsExclusive(PanelsAfter((false, false), clicks[..|clicks| - 1]), clicks[|clicks| - 1]);
    }
    var c2 := clicks + [AddClick, AddClick];
    assert c2[..|c2| - 1] == clicks + [AddClick];
    assert (clicks + [AddClick])[..|clicks|] == clicks;
  }
}

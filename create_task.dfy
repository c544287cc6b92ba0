/**
 * The task dialog's own handlers (`CreateTaskForm`): subtask validation, confirming and
 * deleting subtasks, and the task record handed to the parent on submit. They act on the
 * state of the task form hook, whose setters they call.
 */
module CreateTask {
  import opened Wrappers
  import opened JsNumbers
  import opened Records
  import opened CalculateCost
  import opened UseForm
  import Seqs
  import Text

  const NameRequired := "Subtask name is required"
  const HoursRequired := "Valid hours estimate is required"

  /** `!subtask.name.trim()`. */
  predicate NameMissing(s: Subtask)
  {
    Text.Trim(s.name) == ""
  }

  /** `!subtask.hoursEstimate || parseFloat(subtask.hoursEstimate) <= 0`; NaN compares false. */
  predicate HoursInvalid(s: Subtask)
  {
    !Truthy(s.hoursEstimate) || (ParseFloat(s.hoursEstimate).Num? && ParseFloat(s.hoursEstimate).r <= 0.0)
  }

  /** The message `validateSubtask` shows for a subtask, or None when it passes. The name is checked first. */
  function SubtaskProblem(s: Subtask): (r: Option<string>)
    ensures r == Some(NameRequired) <==> NameMissing(s)
    ensures r == Some(HoursRequired) <==> !NameMissing(s) && HoursInvalid(s)
    ensures r.None? <==> !NameMissing(s) && !HoursInvalid(s)
  {
    if NameMissing(s) then Some(NameRequired)
    else if HoursInvalid(s) then Some(HoursRequired)
    else None
  }

  /** A name is rejected exactly when it is empty or all white space. */
  lemma NameRejectedIffBlank(s: Subtask)
    ensures SubtaskProblem(s) == Some(NameRequired) <==> Text.AllSpace(s.name)
  {
    Text.TrimEmptyIffAllSpace(s.name);
  }

  /** A subtask that passes has a positive estimate, or one that does not parse and counts as 0. */
  lemma AcceptedHours(s: Subtask)
    requires SubtaskProblem(s).None?
    ensures ToNumber(s.hoursEstimate) > 0.0 || ParseFloat(s.hoursEstimate).NotANumber?
    ensures NonNegative(s.hoursEstimate)
  {
  }

  /** A non-numeric estimate such as "abc" is accepted, and adds no hours. */
  lemma NonNumericHoursAccepted()
    ensures SubtaskProblem(Subtask("Design", Text("abc", NotANumber), [])).None?
    ensures SubtaskHours([Subtask("Design", Text("abc", NotANumber), [])]) == 0.0
  {
    var s := Subtask("Design", Text("abc", NotANumber), []);
    assert Text.Trim(s.name) == s.name by {
      assert !Text.IsSpace('D') && !Text.IsSpace('n');
      Text.TrimUnchanged(s.name);
    }
    assert [s][..0] == [];
  }

  /** Confirmed subtasks that all passed validation add up to a non-negative number of hours. */
  lemma AcceptedSubtasksHours(subtasks: seq<Subtask>)
    requires forall i :: 0 <= i < |subtasks| ==> SubtaskProblem(subtasks[i]).None?
    ensures SubtaskHours(subtasks) >= 0.0
  {
    forall i | 0 <= i < |subtasks| ensures NonNegative(subtasks[i].hoursEstimate) {
      AcceptedHours(subtasks[i]);
    }
    SubtaskHoursNotNegative(subtasks);
  }

  /**
   * The task `handleTaskSubmit` submits: the form's fields, with the confirmed subtasks and
   * their summed hours when subtasks are on, and no subtasks and the form's own estimate
   * (as `parseFloat(x) || 0`) when they are off.
   */
  function TaskData(formData: Task, hasSubtasks: bool, confirmed: seq<Subtask>): (r: Task)
    ensures r.name == formData.name && r.otherCosts == formData.otherCosts
    ensures r.subtasks == if hasSubtasks then confirmed else []
    ensures r.hoursEstimate.Number?
    ensures ToNumber(r.hoursEstimate) == if hasSubtasks then SubtaskHours(confirmed) else ToNumber(formData.hoursEstimate)
  {
    formData.(subtasks := if hasSubtasks then confirmed else [],
              hoursEstimate := FromReal(if hasSubtasks then SubtaskHours(confirmed) else ToNumber(formData.hoursEstimate)))
  }

  /** The hours the cost calculator counts for a submitted task are the hours the dialog showed. */
  lemma SubmittedTaskHours(formData: Task, hasSubtasks: bool, confirmed: seq<Subtask>)
    ensures TaskHours(TaskData(formData, hasSubtasks, confirmed))
            == if hasSubtasks then SubtaskHours(confirmed) else ToNumber(formData.hoursEstimate)
  {
    if hasSubtasks && confirmed == [] {
      assert SubtaskHours(confirmed) == 0.0;
    }
  }

  /** `currentSubtask?.name || currentSubtask?.hoursEstimate`: an editor row with something typed in it. */
  predicate Unconfirmed(current: Option<Subtask>)
  {
    current.Some? && (current.value.name != "" || Truthy(current.value.hoursEstimate))
  }

  /** `validateSubtask(subtask)`: records the message for a failing subtask, clears it for a passing one. */
  method ValidateSubtask(f: TaskForm, s: Subtask) returns (ok: bool)
    modifies f`subtaskError
    ensures ok <==> SubtaskProblem(s).None?
    ensures f.subtaskError == if ok then "" else SubtaskProblem(s).value
  {
    if Text.Trim(s.name) == "" {
      f.subtaskError := NameRequired;
      return false;
    }
    if !Truthy(s.hoursEstimate) || (ParseFloat(s.hoursEstimate).Num? && ParseFloat(s.hoursEstimate).r <= 0.0) {
      f.subtaskError := HoursRequired;
      return false;
    }
    f.subtaskError := "";
    ok := true;
  }

  /** The subtask list after a valid subtask is confirmed: it replaces the one being edited, or is appended. */
  function ListAfterConfirm(list: seq<Subtask>, isEditing: bool, index: Option<int>, s: Subtask): (r: seq<Subtask>)
    ensures isEditing && index.Some? ==>
              && |r| == |list|
              && (forall i :: 0 <= i < |r| && i != index.value ==> r[i] == list[i])
              && (0 <= index.value < |r| ==> r[index.value] == s)
    ensures !(isEditing && index.Some?) ==> r == list + [s]
  {
    if isEditing && index.Some? then Seqs.ReplaceIndex(list, index.value, s) else list + [s]
  }

  /**
   * `handleConfirmSubtaskClick()`: a valid subtask in the editor replaces the one being edited,
   * or is appended, and the editor closes; otherwise the list stays as it is.
   */
  method ConfirmSubtaskClick(f: TaskForm)
    modifies f`confirmedSubtasks, f`currentSubtask, f`subtaskError, f`isEditing, f`editingSubtaskIndex
    ensures old(f.currentSubtask).None? ==>
              unchanged(f`confirmedSubtasks, f`currentSubtask, f`subtaskError, f`isEditing, f`editingSubtaskIndex)
    ensures old(f.currentSubtask).Some? && SubtaskProblem(old(f.currentSubtask).value).Some? ==>
              && unchanged(f`confirmedSubtasks, f`currentSubtask, f`isEditing, f`editingSubtaskIndex)
              && f.subtaskError == SubtaskProblem(old(f.currentSubtask).value).value
    ensures old(f.currentSubtask).Some? && SubtaskProblem(old(f.currentSubtask).value).None? ==>
              && f.confirmedSubtasks == ListAfterConfirm(old(f.confirmedSubtasks), old(f.isEditing),
                                                         old(f.editingSubtaskIndex), old(f.currentSubtask).value)
              && f.currentSubtask.None? && f.subtaskError == "" && !f.isEditing && f.editingSubtaskIndex.None?
  {
    if f.currentSubtask.None? {
      return;
    }
    var current := f.currentSubtask.value;
    var ok := ValidateSubtask(f, current);
    if ok {
      CommitSubtask(f, current);
    }
  }

  /** The valid branch of `handleConfirmSubtaskClick`: store the subtask, then reset the editor. */
  method CommitSubtask(f: TaskForm, current: Subtask)
    modifies f`confirmedSubtasks, f`currentSubtask, f`subtaskError, f`isEditing, f`editingSubtaskIndex
    ensures f.confirmedSubtasks == ListAfterConfirm(old(f.confirmedSubtasks), old(f.isEditing), old(f.editingSubtaskIndex), current)
    ensures f.currentSubtask.None? && f.subtaskError == "" && !f.isEditing && f.editingSubtaskIndex.None?
  {
    if f.isEditing && f.editingSubtaskIndex.Some? {
      f.HandleUpdateSubtask(f.editingSubtaskIndex.value, current);
    } else {
      f.HandleConfirmSubtask(current);
    }
    f.currentSubtask := None;
    f.subtaskError := "";
    f.isEditing := false;
    f.editingSubtaskIndex := None;
  }

  /** `handleConfirmDeleteSubtask()`: removes the chosen subtask, if one was chosen, and closes the dialog. */
  method ConfirmDeleteSubtask(f: TaskForm)
    modifies f`confirmedSubtasks, f`subtaskToDelete, f`showDeleteSubtaskModal
    ensures old(f.subtaskToDelete).None? ==>
              unchanged(f`confirmedSubtasks, f`subtaskToDelete, f`showDeleteSubtaskModal)
    ensures old(f.subtaskToDelete).Some? ==>
              && f.confirmedSubtasks == Seqs.WithoutIndex(old(f.confirmedSubtasks), old(f.subtaskToDelete).value)
              && f.subtaskToDelete.None? && !f.showDeleteSubtaskModal
  {
    if f.subtaskToDelete.Some? {
      f.HandleRemoveSubtask(f.subtaskToDelete.value);
      f.subtaskToDelete := None;
      f.showDeleteSubtaskModal := false;
    }
  }

  /**
   * `handleTaskSubmit()`: the task handed to `onSubmit`, or None when an unconfirmed subtask
   * is in the editor and the user declines to continue without it (`proceed` is the answer).
   */
  method HandleTaskSubmit(f: TaskForm, proceed: bool) returns (submitted: Option<Task>)
    ensures Unconfirmed(f.currentSubtask) && !proceed ==> submitted.None?
    ensures !(Unconfirmed(f.currentSubtask) && !proceed) ==>
              submitted == Some(TaskData(f.formData, f.hasSubtasks, f.confirmedSubtasks))
  {
    if Unconfirmed(f.currentSubtask) && !proceed {
      return None;
    }
    submitted := Some(TaskData(f.formData, f.hasSubtasks, f.confirmedSubtasks));
  }

  /** A subtask typed into a fresh editor and confirmed ends up last in the list. */
  method AddSubtaskFlow(f: TaskForm, name: string, hours: Field)
    requires SubtaskProblem(Subtask(name, hours, [])).None?
    modifies f
    ensures f.confirmedSubtasks == old(f.confirmedSubtasks) + [Subtask(name, hours, [])]
    ensures f.currentSubtask.None? && f.subtaskError == ""
  {
    f.HandleAddSubtask();
    f.currentSubtask := Some(Subtask(name, hours, []));
    ConfirmSubtaskClick(f);
  }
}

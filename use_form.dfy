/**
 * The two form hooks. `useProjectForm` keeps the project being edited, a cached `totalCost`
 * recomputed by some handlers, the tasks switch with its stash, and the dirty/cancel flow.
 * `useTaskForm` keeps the task being edited and the list of confirmed subtasks. Each React
 * handler is one atomic method on a class whose fields are the hook's state variables; a
 * callback handed to a handler is an `Action`, and running it appends it to `invoked`.
 */
module UseForm {
  import opened Wrappers
  import opened JsNumbers
  import opened Records
  import opened CalculateCost
  import Seqs

  // ---- useProjectForm ---------------------------------------------------------------------

  /** The blank project form; `quoteNumber` starts as "". */
  const DefaultProject := Project(None, "", "", Blank, Blank, [], [], 0.0, Some(""), "", "")

  /** One `handleInputChange({target: {name, value}})` call, by field name. */
  datatype Edit =
    | SetName(name: string)
    | SetCustomerName(customerName: string)
    | SetHourlyRate(hourlyRate: Field)
    | SetHoursEstimate(hoursEstimate: Field)
    | SetTasks(tasks: seq<Task>)

  /** A callback such as `onCancel`, known by an identity. */
  datatype Action = Action(id: int)

  /** `a === b` on two field values: NaN equals nothing, a string never equals a number. */
  predicate StrictEquals(a: Field, b: Field)
  {
    match (a, b)
    case (Missing, Missing) => true
    case (Text(s, _), Text(t, _)) => s == t
    case (Number(Num(x)), Number(Num(y))) => x == y
    case _ => false
  }

  /** `originalData[name] !== value`. A tasks array built by the caller is never the stored one. */
  predicate ChangesValue(original: Project, e: Edit)
  {
    match e
    case SetName(s) => original.name != s
    case SetCustomerName(s) => original.customerName != s
    case SetHourlyRate(f) => !StrictEquals(original.hourlyRate, f)
    case SetHoursEstimate(f) => !StrictEquals(original.hoursEstimate, f)
    case SetTasks(_) => true
  }

  /** `{...prev, [name]: value}`. */
  function Applied(p: Project, e: Edit): Project
  {
    match e
    case SetName(s) => p.(name := s)
    case SetCustomerName(s) => p.(customerName := s)
    case SetHourlyRate(f) => p.(hourlyRate := f)
    case SetHoursEstimate(f) => p.(hoursEstimate := f)
    case SetTasks(ts) => p.(tasks := ts)
  }

  predicate IsRateOrEstimate(e: Edit)
  {
    e.SetHourlyRate? || e.SetHoursEstimate?
  }

  /** The cached total agrees with the calculator for the current tasks switch. */
  predicate TotalIsCurrent(p: Project, includeTasks: bool)
  {
    if includeTasks then p.totalCost == TotalCost(p.tasks, p.otherCosts, p.hourlyRate)
    else p.totalCost == ProjectCost(p.hourlyRate, p.hoursEstimate)
  }

  /**
   * The form data after `handleInputChange`: only the named field changes, and only an edit
   * of the rate or the estimate refreshes the total, from the new values.
   */
  function AfterInput(prev: Project, e: Edit, includeTasks: bool): (r: Project)
    ensures r.(totalCost := prev.totalCost) == Applied(prev, e)
    ensures IsRateOrEstimate(e) ==> TotalIsCurrent(r, includeTasks)
    ensures !IsRateOrEstimate(e) ==> r.totalCost == prev.totalCost
  {
    var updated := Applied(prev, e);
    if IsRateOrEstimate(e) then
      updated.(totalCost :=
        if !includeTasks then ProjectCost(updated.hourlyRate, updated.hoursEstimate)
        else TotalCost(prev.tasks, prev.otherCosts, updated.hourlyRate))
    else updated
  }

  /** The state of `useProjectForm`. */
  class ProjectForm {
    var formData: Project
    var originalData: Option<Project>
    var isDirty: bool
    var showWarningModal: bool
    var pendingAction: Option<Action>
    var includeTasks: bool
    var savedTasks: seq<Task>
    var previousHoursEstimate: Field
    var showCostsModal: bool
    var invoked: seq<Action>

    /** `useProjectForm(initialData)`: a new form, or an existing project to edit. */
    constructor(initialData: Option<Project>)
      ensures formData == (if initialData.Some? then initialData.value else DefaultProject)
      ensures originalData == initialData
      ensures includeTasks == (initialData.Some? && |initialData.value.tasks| > 0)
      ensures !isDirty && !showWarningModal && pendingAction.None? && !showCostsModal
      ensures savedTasks == [] && previousHoursEstimate == Blank && invoked == []
    {
      formData := if initialData.Some? then initialData.value else DefaultProject;
      originalData := initialData;
      isDirty := false;
      showWarningModal := false;
      pendingAction := None;
      includeTasks := initialData.Some? && |initialData.value.tasks| > 0;
      savedTasks := [];
      previousHoursEstimate := Blank;
      showCostsModal := false;
      invoked := [];
    }

    /** `handleInputChange`: sets the named field; an existing project becomes dirty when the value differs. */
    method HandleInputChange(e: Edit)
      modifies this
      ensures formData == AfterInput(old(formData), e, includeTasks)
      ensures isDirty == (old(isDirty) || (originalData.Some? && ChangesValue(originalData.value, e)))
      ensures unchanged(this`originalData, this`includeTasks, this`savedTasks, this`previousHoursEstimate)
      ensures unchanged(this`showWarningModal, this`pendingAction, this`showCostsModal, this`invoked)
    {
      formData := AfterInput(formData, e, includeTasks);
      if originalData.Some? && ChangesValue(originalData.value, e) {
        isDirty := true;
      }
    }

    /** `handleAddTask(task)`: appends the task and recomputes the total with it. */
    method HandleAddTask(t: Task)
      modifies this
      ensures formData == old(formData).(tasks := old(formData.tasks) + [t],
                                         totalCost := TotalCost(old(formData.tasks) + [t], old(formData.otherCosts), old(formData.hourlyRate)))
      ensures formData.totalCost == old(TotalCost(formData.tasks, formData.otherCosts, formData.hourlyRate))
                                    + TaskHours(t) * ToNumber(formData.hourlyRate) + OtherCostsTotal(t.otherCosts)
      ensures isDirty == (old(isDirty) || originalData.Some?)
      ensures unchanged(this`originalData, this`includeTasks, this`savedTasks, this`previousHoursEstimate)
      ensures unchanged(this`showWarningModal, this`pendingAction, this`showCostsModal, this`invoked)
    {
      var before := formData;
      var tasks := before.tasks + [t];
      var total := TotalCost(tasks, before.otherCosts, before.hourlyRate);
      AppendTaskCost(before.tasks, t, before.otherCosts, before.hourlyRate);
      formData := before.(tasks := tasks, totalCost := total);
      if originalData.Some? {
        isDirty := true;
      }
    }

    /** `handleAddCosts(costs)`: replaces the project costs, recomputes the total, closes the costs dialog. */
    method HandleAddCosts(costs: seq<Cost>)
      modifies this
      ensures formData == old(formData).(otherCosts := costs,
                                         totalCost := TotalCost(old(formData.tasks), costs, old(formData.hourlyRate)))
      ensures !showCostsModal
      ensures isDirty == (old(isDirty) || originalData.Some?)
      ensures unchanged(this`originalData, this`includeTasks, this`savedTasks, this`previousHoursEstimate)
      ensures unchanged(this`showWarningModal, this`pendingAction, this`invoked)
    {
      formData := formData.(otherCosts := costs, totalCost := TotalCost(formData.tasks, costs, formData.hourlyRate));
      if originalData.Some? {
        isDirty := true;
      }
      showCostsModal := false;
    }

    /**
     * `toggleTasks(enable)`. Switching on brings back the stashed tasks and keeps the project
     * estimate aside; switching off stashes the tasks and brings the estimate back. The form
     * becomes dirty when an existing project's data differed from its original before the switch.
     */
    method ToggleTasks(enable: bool)
      modifies this
      ensures includeTasks == enable
      ensures enable ==>
                && previousHoursEstimate == old(formData.hoursEstimate)
                && savedTasks == old(savedTasks)
                && formData == old(formData).(tasks := old(savedTasks), hoursEstimate := Blank,
                                              totalCost := TotalCost(old(savedTasks), old(formData.otherCosts), old(formData.hourlyRate)))
      ensures !enable ==>
                && previousHoursEstimate == old(previousHoursEstimate)
                && savedTasks == old(formData.tasks)
                && formData == old(formData).(tasks := [], hoursEstimate := old(previousHoursEstimate),
                                              totalCost := ProjectCost(old(formData.hourlyRate), old(previousHoursEstimate)))
      ensures TotalIsCurrent(formData, includeTasks)
      ensures isDirty == (old(isDirty) || (originalData.Some? && originalData.value != old(formData)))
      ensures unchanged(this`originalData, this`showWarningModal, this`pendingAction, this`showCostsModal, this`invoked)
    {
      var before := formData;
      includeTasks := enable;
      if enable {
        previousHoursEstimate := before.hoursEstimate;
        formData := before.(tasks := savedTasks, hoursEstimate := Blank,
                            totalCost := TotalCost(savedTasks, before.otherCosts, before.hourlyRate));
      } else {
        savedTasks := before.tasks;
        formData := before.(tasks := [], hoursEstimate := previousHoursEstimate,
                            totalCost := ProjectCost(before.hourlyRate, previousHoursEstimate));
      }
      if originalData.Some? && originalData.value != before {
        isDirty := true;
      }
    }

    /**
     * `confirmCancel(onCancel)`: a new or dirty form asks first, keeping the action for the
     * warning dialog; a clean existing form runs the action at once.
     */
    method ConfirmCancel(onCancel: Action)
      modifies this
      ensures originalData.None? || isDirty ==>
                showWarningModal && pendingAction == Some(onCancel) && invoked == old(invoked)
      ensures !(originalData.None? || isDirty) ==>
                invoked == old(invoked) + [onCancel] && unchanged(this`showWarningModal, this`pendingAction)
      ensures unchanged(this`formData, this`originalData, this`isDirty, this`includeTasks, this`savedTasks)
      ensures unchanged(this`previousHoursEstimate, this`showCostsModal)
    {
      if originalData.None? || isDirty {
        showWarningModal := true;
        pendingAction := Some(onCancel);
      } else {
        invoked := invoked + [onCancel];
      }
    }

    /** `handleWarningClose()`: hides the warning and forgets the pending action. */
    method HandleWarningClose()
      modifies this
      ensures !showWarningModal && pendingAction.None?
      ensures unchanged(this`formData, this`originalData, this`isDirty, this`includeTasks, this`savedTasks)
      ensures unchanged(this`previousHoursEstimate, this`showCostsModal, this`invoked)
    {
      showWarningModal := false;
      pendingAction := None;
    }

    /** `handleWarningConfirm()`: runs the pending action, if any, then closes the warning. */
    method HandleWarningConfirm()
      modifies this
      ensures invoked == old(invoked) + (if old(pendingAction).Some? then [old(pendingAction).value] else [])
      ensures !showWarningModal && pendingAction.None?
      ensures unchanged(this`formData, this`originalData, this`isDirty, this`includeTasks, this`savedTasks)
      ensures unchanged(this`previousHoursEstimate, this`showCostsModal)
    {
      if pendingAction.Some? {
        invoked := invoked + [pendingAction.value];
      }
      HandleWarningClose();
    }
  }

  // ---- useProjectForm: properties ---------------------------------------------------------

  /** Cancelling a new project and confirming the warning runs `onCancel` exactly once, even if confirmed twice. */
  method CancelNewProject(f: ProjectForm, onCancel: Action)
    requires f.originalData.None?
    modifies f
    ensures f.invoked == old(f.invoked) + [onCancel]
    ensures !f.showWarningModal && f.pendingAction.None?
  {
    f.ConfirmCancel(onCancel);
    f.HandleWarningConfirm();
    f.HandleWarningConfirm();
  }

  /** Closing the warning instead cancels nothing. */
  method CancelThenStay(f: ProjectForm, onCancel: Action)
    requires f.originalData.None?
    modifies f
    ensures f.invoked == old(f.invoked) && f.formData == old(f.formData)
  {
    f.ConfirmCancel(onCancel);
    f.HandleWarningClose();
    f.HandleWarningConfirm();
  }

  /** Switching tasks off and on again gives the same tasks back. */
  method TasksOffAndOn(f: ProjectForm)
    modifies f
    ensures f.formData.tasks == old(f.formData.tasks) && f.includeTasks
    ensures f.formData.totalCost == TotalCost(f.formData.tasks, f.formData.otherCosts, f.formData.hourlyRate)
  {
    f.ToggleTasks(false);
    f.ToggleTasks(true);
  }

  /** Switching tasks on and off again gives the same project estimate back, with no tasks. */
  method TasksOnAndOff(f: ProjectForm)
    modifies f
    ensures f.formData.hoursEstimate == old(f.formData.hoursEstimate) && f.formData.tasks == []
    ensures f.formData.totalCost == ProjectCost(f.formData.hourlyRate, f.formData.hoursEstimate)
  {
    f.ToggleTasks(true);
    f.ToggleTasks(false);
  }

  /**
   * Replacing the task list through `handleInputChange` keeps the old total: with a rate of
   * 10, a form with no tasks and a total of 0 gets a one-hour task and still shows 0, where
   * the calculator gives 10.
   */
  lemma TasksEditLeavesTotalStale()
    ensures var prev := DefaultProject.(hourlyRate := N(10.0));
            var r := AfterInput(prev, SetTasks([Task("", N(1.0), [], [])]), true);
            TotalIsCurrent(prev, true) && !TotalIsCurrent(r, true) && r.totalCost == 0.0
  {
    var t := Task("", N(1.0), [], []);
    assert TotalHours([t]) == 1.0 by { assert [t][..0] == []; }
    assert TaskCostsTotal([t]) == 0.0 by { assert [t][..0] == []; }
  }

  /**
   * With tasks off, the costs dialog puts the project costs in the total, but the next rate
   * or estimate edit recomputes it as rate times estimate and leaves them out: costs of 50
   * at a rate of 10 and an estimate of 2 show 50, then 20 after the rate is typed again.
   */
  lemma CostsDroppedByRateEditWithoutTasks()
    ensures var start := DefaultProject.(hourlyRate := N(10.0), hoursEstimate := N(2.0));
            var costs := [Cost(1, "Licence", Software, N(50.0))];
            var withCosts := start.(otherCosts := costs, totalCost := TotalCost(start.tasks, costs, start.hourlyRate));
            var r := AfterInput(withCosts, SetHourlyRate(N(10.0)), false);
            withCosts.totalCost == 50.0 && r.totalCost == 20.0 && r.otherCosts == costs
  {
    var c := Cost(1, "Licence", Software, N(50.0));
    assert OtherCostsTotal([c]) == 50.0 by { assert [c][..0] == []; }
  }

  // ---- useTaskForm ------------------------------------------------------------------------

  /** The blank task form. */
  const DefaultTask := Task("", Blank, [], [])

  /** The editor contents `handleAddSubtask` opens: `{name: "", hoursEstimate: ""}`. */
  const BlankSubtask := Subtask("", Blank, [])

  /** One `handleInputChange` call on the task form, by field name. */
  datatype TaskEdit = SetTaskName(name: string) | SetTaskHours(hoursEstimate: Field)

  /** The state of `useTaskForm`. */
  class TaskForm {
    var formData: Task
    var hasSubtasks: bool
    var confirmedSubtasks: seq<Subtask>
    var currentSubtask: Option<Subtask>
    var isEditing: bool
    var editingSubtaskIndex: Option<int>
    var showDeleteSubtaskModal: bool
    var subtaskToDelete: Option<int>
    var subtaskError: string
    var showCostsModal: bool

    /** `useTaskForm(initialData)`: a new task, or an existing one with its subtasks. */
    constructor(initialData: Option<Task>)
      ensures formData == (if initialData.Some? then initialData.value else DefaultTask)
      ensures hasSubtasks == (initialData.Some? && |initialData.value.subtasks| > 0)
      ensures confirmedSubtasks == (if initialData.Some? then initialData.value.subtasks else [])
      ensures currentSubtask.None? && !isEditing && editingSubtaskIndex.None?
      ensures !showDeleteSubtaskModal && subtaskToDelete.None? && subtaskError == "" && !showCostsModal
    {
      formData := if initialData.Some? then initialData.value else DefaultTask;
      hasSubtasks := initialData.Some? && |initialData.value.subtasks| > 0;
      confirmedSubtasks := if initialData.Some? then initialData.value.subtasks else [];
      currentSubtask := None;
      isEditing := false;
      editingSubtaskIndex := None;
      showDeleteSubtaskModal := false;
      subtaskToDelete := None;
      subtaskError := "";
      showCostsModal := false;
    }

    /** `handleInputChange`: sets the named field of the task. */
    method HandleInputChange(e: TaskEdit)
      modifies this`formData
      ensures formData == match e
                          case SetTaskName(s) => old(formData).(name := s)
                          case SetTaskHours(f) => old(formData).(hoursEstimate := f)
    {
      match e {
        case SetTaskName(s) => formData := formData.(name := s);
        case SetTaskHours(f) => formData := formData.(hoursEstimate := f);
      }
    }

    /** `toggleSubtasks(enable)`: switching off discards the confirmed subtasks; switching on keeps them. */
    method ToggleSubtasks(enable: bool)
      modifies this`hasSubtasks, this`confirmedSubtasks
      ensures hasSubtasks == enable
      ensures confirmedSubtasks == if enable then old(confirmedSubtasks) else []
    {
      hasSubtasks := enable;
      if !enable {
        confirmedSubtasks := [];
      }
    }

    /** `handleAddSubtask()`: opens a blank subtask editor for a new subtask. */
    method HandleAddSubtask()
      modifies this`currentSubtask, this`isEditing, this`editingSubtaskIndex
      ensures currentSubtask == Some(BlankSubtask) && !isEditing && editingSubtaskIndex.None?
    {
      currentSubtask := Some(BlankSubtask);
      isEditing := false;
      editingSubtaskIndex := None;
    }

    /** `handleEditSubtask(index)`: opens the subtask at `index`; past the end the editor gets `undefined`. */
    method HandleEditSubtask(index: int)
      modifies this`currentSubtask, this`isEditing, this`editingSubtaskIndex
      ensures 0 <= index < |confirmedSubtasks| ==> currentSubtask == Some(confirmedSubtasks[index])
      ensures !(0 <= index < |confirmedSubtasks|) ==> currentSubtask.None?
      ensures isEditing && editingSubtaskIndex == Some(index)
    {
      currentSubtask := if 0 <= index < |confirmedSubtasks| then Some(confirmedSubtasks[index]) else None;
      isEditing := true;
      editingSubtaskIndex := Some(index);
    }

    /** `handleConfirmSubtask(subtask)`: appends the subtask and closes the editor. */
    method HandleConfirmSubtask(s: Subtask)
      modifies this`confirmedSubtasks, this`currentSubtask
      ensures confirmedSubtasks == old(confirmedSubtasks) + [s]
      ensures currentSubtask.None?
    {
      confirmedSubtasks := confirmedSubtasks + [s];
      currentSubtask := None;
    }

    /** `handleUpdateSubtask(index, subtask)`: replaces only the subtask at `index` and closes the editor. */
    method HandleUpdateSubtask(index: int, s: Subtask)
      modifies this`confirmedSubtasks, this`currentSubtask
      ensures confirmedSubtasks == Seqs.ReplaceIndex(old(confirmedSubtasks), index, s)
      ensures |confirmedSubtasks| == |old(confirmedSubtasks)|
      ensures forall i :: 0 <= i < |confirmedSubtasks| && i != index ==> confirmedSubtasks[i] == old(confirmedSubtasks)[i]
      ensures 0 <= index < |confirmedSubtasks| ==> confirmedSubtasks[index] == s
      ensures currentSubtask.None?
    {
      confirmedSubtasks := Seqs.ReplaceIndex(confirmedSubtasks, index, s);
      currentSubtask := None;
    }

    /** `handleRemoveSubtask(index)`: drops only the subtask at `index`, keeping the others in order. */
    method HandleRemoveSubtask(index: int)
      modifies this`confirmedSubtasks
      ensures confirmedSubtasks == Seqs.WithoutIndex(old(confirmedSubtasks), index)
      ensures 0 <= index < |old(confirmedSubtasks)| ==>
                confirmedSubtasks == old(confirmedSubtasks)[..index] + old(confirmedSubtasks)[index + 1..]
      ensures !(0 <= index < |old(confirmedSubtasks)|) ==> confirmedSubtasks == old(confirmedSubtasks)
    {
      confirmedSubtasks := Seqs.WithoutIndex(confirmedSubtasks, index);
    }

    /** `handleAddCosts(costs)`: replaces the task's own costs. */
    method HandleAddCosts(costs: seq<Cost>)
      modifies this`formData
      ensures formData == old(formData).(otherCosts := costs)
    {
      formData := formData.(otherCosts := costs);
    }
  }

  // ---- useTaskForm: properties ------------------------------------------------------------

  /** Opening a subtask and saving it back unchanged leaves the list as it was. */
  method EditAndSaveUnchanged(f: TaskForm, index: int)
    requires 0 <= index < |f.confirmedSubtasks|
    modifies f
    ensures f.confirmedSubtasks == old(f.confirmedSubtasks)
  {
    f.HandleEditSubtask(index);
    f.HandleUpdateSubtask(index, f.currentSubtask.value);
  }

  /** Confirming a subtask and then removing the last one gives the list back. */
  method ConfirmThenRemove(f: TaskForm, s: Subtask)
    modifies f
    ensures f.confirmedSubtasks == old(f.confirmedSubtasks)
  {
    f.HandleConfirmSubtask(s);
    f.HandleRemoveSubtask(|f.confirmedSubtasks| - 1);
  }
}

/**
 * The task list hook (`useTaskManagement`): a list of tasks changed by append, remove-at and
 * replace-at, each change reported to an optional `onTasksChange` callback with the new list.
 */
module TaskManagement {
  import opened JsNumbers
  import opened Records
  import opened CalculateCost
  import Seqs

  /** A subtask with its estimate stored as `parseFloat(x) || 0`. */
  function NormalisedSubtask(s: Subtask): (r: Subtask)
    ensures r.hoursEstimate.Number? && ToNumber(r.hoursEstimate) == ToNumber(s.hoursEstimate)
    ensures r.(hoursEstimate := s.hoursEstimate) == s
  {
    s.(hoursEstimate := FromReal(ToNumber(s.hoursEstimate)))
  }

  /** The record `handleAddTask` stores: every estimate, the task's and each subtask's, made a number. */
  function Normalised(t: Task): (r: Task)
    ensures r.name == t.name && r.otherCosts == t.otherCosts
    ensures r.hoursEstimate.Number? && ToNumber(r.hoursEstimate) == ToNumber(t.hoursEstimate)
    ensures |r.subtasks| == |t.subtasks|
    ensures forall i :: 0 <= i < |t.subtasks| ==> r.subtasks[i] == NormalisedSubtask(t.subtasks[i])
  {
    t.(hoursEstimate := FromReal(ToNumber(t.hoursEstimate)),
       subtasks := Seqs.Map(t.subtasks, NormalisedSubtask))
  }

  lemma {:induction false} NormalisedSubtaskHours(s: seq<Subtask>, s': seq<Subtask>)
    requires |s'| == |s|
    requires forall i :: 0 <= i < |s| ==> s'[i] == NormalisedSubtask(s[i])
    ensures SubtaskHours(s') == SubtaskHours(s)
  {
    if s != [] {
      NormalisedSubtaskHours(s[..|s| - 1], s'[..|s'| - 1]);
    }
  }

  /** Normalising a task does not change the hours it contributes to a total. */
  lemma NormalisedHours(t: Task)
    ensures TaskHours(Normalised(t)) == TaskHours(t)
  {
    NormalisedSubtaskHours(t.subtasks, Normalised(t).subtasks);
  }

  /** Normalising twice is normalising once. */
  lemma NormalisedIdempotent(t: Task)
    ensures Normalised(Normalised(t)) == Normalised(t)
  {
    var once := Normalised(t);
    assert Normalised(once).subtasks == once.subtasks;
  }

  /** The state of `useTaskManagement(onTasksChange)`. */
  class TaskManager {
    var tasks: seq<Task>
    var showTaskModal: bool
    /** Whether an `onTasksChange` callback was passed. */
    const hasCallback: bool
    /** Every list the callback has received, oldest first. */
    var notified: seq<seq<Task>>

    constructor(hasCallback: bool)
      ensures this.hasCallback == hasCallback
      ensures tasks == [] && !showTaskModal && notified == []
    {
      this.hasCallback := hasCallback;
      tasks := [];
      showTaskModal := false;
      notified := [];
    }

    /** Reports the new list to the callback, when there is one. */
    method Notify()
      modifies this`notified
      ensures notified == old(notified) + (if hasCallback then [tasks] else [])
    {
      if hasCallback {
        notified := notified + [tasks];
      }
    }

    /** `handleAddTask(task)`: appends the normalised task. */
    method HandleAddTask(t: Task)
      modifies this`tasks, this`notified
      ensures tasks == old(tasks) + [Normalised(t)]
      ensures notified == old(notified) + (if hasCallback then [tasks] else [])
    {
      tasks := tasks + [Normalised(t)];
      Notify();
    }

    /** `handleRemoveTask(index)`: drops only the task at `index`; another index changes nothing. */
    method HandleRemoveTask(index: int)
      modifies this`tasks, this`notified
      ensures tasks == Seqs.WithoutIndex(old(tasks), index)
      ensures 0 <= index < |old(tasks)| ==> tasks == old(tasks)[..index] + old(tasks)[index + 1..]
      ensures !(0 <= index < |old(tasks)|) ==> tasks == old(tasks)
      ensures notified == old(notified) + (if hasCallback then [tasks] else [])
    {
      tasks := Seqs.WithoutIndex(tasks, index);
      Notify();
    }

    /** `handleEditTask(index, task)`: replaces only the task at `index`, as given. */
    method HandleEditTask(index: int, t: Task)
      modifies this`tasks, this`notified
      ensures tasks == Seqs.ReplaceIndex(old(tasks), index, t)
      ensures |tasks| == |old(tasks)|
      ensures forall i :: 0 <= i < |tasks| && i != index ==> tasks[i] == old(tasks)[i]
      ensures notified == old(notified) + (if hasCallback then [tasks] else [])
    {
      tasks := Seqs.ReplaceIndex(tasks, index, t);
      Notify();
    }
  }

  /** Adding a task raises the labour hours by what the task contributes as submitted. */
  lemma AddedTaskHours(tasks: seq<Task>, t: Task)
    ensures TotalHours(tasks + [Normalised(t)]) == TotalHours(tasks) + TaskHours(t)
  {
    TotalHoursConcat(tasks, [Normalised(t)]);
    assert TotalHours([Normalised(t)]) == TaskHours(Normalised(t)) by { assert [Normalised(t)][..0] == []; }
    NormalisedHours(t);
  }

  /** Adding a task and removing the last one gives the list back; the callback saw both lists. */
  method AddThenRemove(m: TaskManager, t: Task)
    requires m.hasCallback
    modifies m
    ensures m.tasks == old(m.tasks)
    ensures m.notified == old(m.notified) + [old(m.tasks) + [Normalised(t)], old(m.tasks)]
  {
    m.HandleAddTask(t);
    m.HandleRemoveTask(|m.tasks| - 1);
    assert m.tasks == old(m.tasks);
  }
}

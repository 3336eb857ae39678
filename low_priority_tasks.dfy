/**
 * The low-priority panel (`LowPriorityTasks`): the same load, expansion and save
 * sequence as the main view against the low-priority endpoint, plus a `loading`
 * flag and the new-task form. The panel's `userId` is the prop it was given;
 * `handleSave` reads the stored identity instead, which is a parameter here.
 */
module LowPriorityTasks {
  import opened Http
  import opened Checklist

  const FetchError := "An error occurred while fetching Low-priority tasks."
  const SaveError := "Failed to save activity."
  const ToggleError := "Failed to update task completion."
  const AddError := "Failed to add new task."

  /** The new-task form's fields. */
  datatype NewTask = NewTask(name: string, note: string, checklistType: Label)

  const EmptyNewTask := NewTask("", "", Morning)

  /** One change made in the form: a typed name or note, or a selected label. */
  datatype NewTaskEdit = SetName(name: string) | SetNote(note: string) | SetType(checklistType: Label)

  /** The single custom item `handleAddTask` submits for a form. */
  function CustomItemOf(form: NewTask): (item: CustomItem)
    ensures item.name == form.name && item.note == form.note
    ensures !item.completed && item.priority == "low"
  {
    CustomItem(form.name, form.note, false, "low")
  }

  class LowPriorityTasksView {
    const userId: string
    var checklist: seq<Group>
    var checkedItems: map<Id, bool>
    var loading: bool
    var error: string
    var showForm: bool
    var newTask: NewTask
    var activeTask: Option<Id>
    var taskDetails: Draft
    ghost var requests: seq<Request>

    /**
     * The checkboxes mirror the groups on display, and no load is in progress
     * between two events (each load runs to completion here).
     */
    ghost predicate Valid()
      reads this
    {
      Mirrors(checklist, checkedItems) && !loading
    }

    constructor(userId: string)
      ensures Valid() && this.userId == userId
      ensures checklist == [] && checkedItems == map[] && error == ""
      ensures !showForm && newTask == EmptyNewTask
      ensures activeTask == None && taskDetails == EmptyDraft && requests == []
    {
      this.userId := userId;
      checklist := [];
      checkedItems := map[];
      loading := false;
      error := "";
      showForm := false;
      newTask := EmptyNewTask;
      activeTask := None;
      taskDetails := EmptyDraft;
      requests := [];
    }

    /**
     * `fetchLowPriorityTasks`: clears the error and raises `loading`, issues one
     * low-priority request per label, then either replaces the groups and rebuilds
     * the projection or, when a request rejects, sets the error and keeps both.
     * `loading` is down again on every path.
     */
    method FetchLowPriorityTasks(replies: seq<Response>)
      requires Valid() && |replies| == |Labels|
      modifies this
      ensures Valid()
      ensures requests == old(requests) + FanOut(GetLowPriority, userId)
      ensures checklist == AfterLoad(old(checklist), replies)
      ensures error == if AllSettled(replies) then "" else FetchError
      ensures activeTask == old(activeTask) && taskDetails == old(taskDetails)
      ensures showForm == old(showForm) && newTask == old(newTask)
    {
      loading, error := true, "";
      var groups, nextChecked := Load(checklist, checkedItems, replies);
      requests, checklist, checkedItems, error, loading :=
        requests + FanOut(GetLowPriority, userId), groups, nextChecked,
        (if AllSettled(replies) then error else FetchError), false;
    }

    /** `handleCheckboxChange`: expands or collapses a task; never touches the projection. */
    method HandleCheckboxChange(task: Task, checklistType: Label)
      requires Valid()
      modifies this
      ensures Valid()
      ensures Expansion(activeTask, taskDetails) == Click(old(Expansion(activeTask, taskDetails)), task.id)
      ensures checklist == old(checklist) && checkedItems == old(checkedItems)
      ensures error == old(error) && requests == old(requests)
      ensures showForm == old(showForm) && newTask == old(newTask)
    {
      var wasActive := activeTask == Some(task.id);
      activeTask := if wasActive then None else Some(task.id);
      if !wasActive {
        taskDetails := EmptyDraft;
      }
    }

    /** `handleInputChange`: changes one draft field and nothing else. */
    method HandleInputChange(field: DraftField, value: string)
      requires Valid()
      modifies this
      ensures Valid()
      ensures Expansion(activeTask, taskDetails) == Edit(old(Expansion(activeTask, taskDetails)), field, value)
      ensures checklist == old(checklist) && checkedItems == old(checkedItems)
      ensures error == old(error) && requests == old(requests)
      ensures showForm == old(showForm) && newTask == old(newTask)
    {
      taskDetails := taskDetails.With(field, value);
    }

    /**
     * `toggleCompletion`: swallows its own failures. Only an ok response triggers
     * the reload (which clears the error first); anything else sets the toggle error.
     */
    method ToggleCompletion(storedUserId: string, checklistType: Label, taskId: Id, isCompleted: bool,
                            toggle: Reply<()>, reload: seq<Response>)
      requires Valid() && |reload| == |Labels|
      modifies this
      ensures Valid()
      ensures requests == old(requests) + [PutToggleCompletion(storedUserId, checklistType, taskId, isCompleted)]
                          + (if IsOk(toggle) then FanOut(GetLowPriority, userId) else [])
      ensures checklist == if IsOk(toggle) then AfterLoad(old(checklist), reload) else old(checklist)
      ensures error == if !IsOk(toggle) then ToggleError
                       else if AllSettled(reload) then "" else FetchError
      ensures activeTask == old(activeTask) && taskDetails == old(taskDetails)
      ensures showForm == old(showForm) && newTask == old(newTask)
    {
      requests := requests + [PutToggleCompletion(storedUserId, checklistType, taskId, isCompleted)];
      if IsOk(toggle) {
        FetchLowPriorityTasks(reload);
      } else {
        error := ToggleError;
      }
    }

    /**
     * `handleSave`: writes the activity from the current draft under the stored
     * identity; only when the backend declares success is that task toggled to
     * completed, after which the panel collapses whatever the toggle's outcome.
     */
    method HandleSave(storedUserId: string, date: string, time: string, checklistType: Label, task: Task,
                      activity: Reply<()>, toggle: Reply<()>, reload: seq<Response>)
      requires Valid() && |reload| == |Labels|
      modifies this
      ensures Valid()
      ensures requests == old(requests)
                          + [CreateActivity(storedUserId, date, task.name, time, old(taskDetails).context, old(taskDetails).feeling)]
                          + (if !DeclaresSuccess(activity) then []
                             else [PutToggleCompletion(storedUserId, checklistType, task.id, true)]
                                  + (if IsOk(toggle) then FanOut(GetLowPriority, userId) else []))
      ensures checklist == if DeclaresSuccess(activity) && IsOk(toggle) then AfterLoad(old(checklist), reload)
                           else old(checklist)
      ensures error == if !DeclaresSuccess(activity) then SaveError
                       else if !IsOk(toggle) then ToggleError
                       else if AllSettled(reload) then "" else FetchError
      ensures activeTask == if DeclaresSuccess(activity) then None else old(activeTask)
      ensures taskDetails == old(taskDetails)
      ensures showForm == old(showForm) && newTask == old(newTask)
    {
      var act := CreateActivity(storedUserId, date, task.name, time, taskDetails.context, taskDetails.feeling);
      requests := requests + [act];
      if DeclaresSuccess(activity) {
        ToggleCompletion(storedUserId, checklistType, task.id, true, toggle, reload);
        activeTask := None;
      } else {
        error := SaveError;
      }
    }

    /**
     * `handleAddTask`: submits the form as one custom item. On an ok response the
     * form is cleared and hidden and the panel reloads; otherwise the form keeps
     * its values and stays as it was, and the error is set.
     */
    method HandleAddTask(create: Reply<()>, reload: seq<Response>)
      requires Valid() && |reload| == |Labels|
      modifies this
      ensures Valid()
      ensures requests == old(requests)
                          + [CreateChecklist(userId, old(newTask).checklistType, [CustomItemOf(old(newTask))])]
                          + (if IsOk(create) then FanOut(GetLowPriority, userId) else [])
      ensures checklist == if IsOk(create) then AfterLoad(old(checklist), reload) else old(checklist)
      ensures error == if !IsOk(create) then AddError
                       else if AllSettled(reload) then "" else FetchError
      ensures newTask == (if IsOk(create) then EmptyNewTask else old(newTask))
      ensures showForm == (!IsOk(create) && old(showForm))
      ensures activeTask == old(activeTask) && taskDetails == old(taskDetails)
    {
      requests := requests + [CreateChecklist(userId, newTask.checklistType, [CustomItemOf(newTask)])];
      if IsOk(create) {
        newTask := EmptyNewTask;
        showForm := false;
        FetchLowPriorityTasks(reload);
      } else {
        error := AddError;
      }
    }

    /** The "+" button: shows or hides the form, keeping what was typed. */
    method ToggleForm()
      requires Valid()
      modifies this
      ensures Valid()
      ensures showForm == !old(showForm) && newTask == old(newTask)
      ensures checklist == old(checklist) && checkedItems == old(checkedItems) && error == old(error)
      ensures activeTask == old(activeTask) && taskDetails == old(taskDetails) && requests == old(requests)
    {
      showForm := !showForm;
    }

    /** An edit in the form: one field changes, the others keep their values. */
    method EditNewTask(edit: NewTaskEdit)
      requires Valid()
      modifies this
      ensures Valid()
      ensures newTask == match edit
                         case SetName(name) => old(newTask).(name := name)
                         case SetNote(note) => old(newTask).(note := note)
                         case SetType(t) => old(newTask).(checklistType := t)
      ensures showForm == old(showForm)
      ensures checklist == old(checklist) && checkedItems == old(checkedItems) && error == old(error)
      ensures activeTask == old(activeTask) && taskDetails == old(taskDetails) && requests == old(requests)
    {
      match edit
      case SetName(name) => newTask := newTask.(name := name);
      case SetNote(note) => newTask := newTask.(note := note);
      case SetType(t) => newTask := newTask.(checklistType := t);
    }
  }
}

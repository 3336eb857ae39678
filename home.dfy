/**
 * The main checklist view (`Home`): the priority tasks of the five labels, the
 * checked-state projection the checkboxes render from, the single expanded task
 * with its reflection draft, and the save sequence (activity write, completion
 * toggle, reload). Every network call's outcome is a parameter; `requests` records
 * the calls issued, in order.
 */
module Home {
  import opened Http
  import opened Checklist

  const FetchError := "An error occurred while fetching the checklist."
  const SaveError := "Failed to save activity."
  const ToggleError := "Failed to update task completion."

  class HomeView {
    var checklist: seq<Group>
    var error: string
    var checkedItems: map<Id, bool>
    var activeTask: Option<Id>
    var taskDetails: Draft
    ghost var requests: seq<Request>

    /** The checkboxes mirror exactly the `completed` flags of the groups on display. */
    ghost predicate Valid()
      reads this
    {
      Mirrors(checklist, checkedItems)
    }

    constructor()
      ensures Valid()
      ensures checklist == [] && error == "" && checkedItems == map[]
      ensures activeTask == None && taskDetails == EmptyDraft && requests == []
    {
      checklist := [];
      error := "";
      checkedItems := map[];
      activeTask := None;
      taskDetails := EmptyDraft;
      requests := [];
    }

    /**
     * `fetchChecklist`: one priority request per label; when every request settles,
     * the groups are replaced by those whose response passed and the projection is
     * rebuilt from scratch; when one rejects, nothing but `error` changes.
     */
    method FetchChecklist(userId: string, replies: seq<Response>)
      requires Valid() && |replies| == |Labels|
      modifies this
      ensures Valid()
      ensures requests == old(requests) + FanOut(GetPriority, userId)
      ensures checklist == AfterLoad(old(checklist), replies)
      ensures error == if AllSettled(replies) then old(error) else FetchError
      ensures activeTask == old(activeTask) && taskDetails == old(taskDetails)
    {
      var groups, nextChecked := Load(checklist, checkedItems, replies);
      requests, checklist, checkedItems := requests + FanOut(GetPriority, userId), groups, nextChecked;
      error := if AllSettled(replies) then error else FetchError;
    }

    /** `handleCheckboxChange`: expands or collapses a task; never touches the projection. */
    method HandleCheckboxChange(checklistType: Label, item: Task)
      requires Valid()
      modifies this
      ensures Valid()
      ensures Expansion(activeTask, taskDetails) == Click(old(Expansion(activeTask, taskDetails)), item.id)
      ensures checklist == old(checklist) && checkedItems == old(checkedItems)
      ensures error == old(error) && requests == old(requests)
    {
      var wasActive := activeTask == Some(item.id);
      activeTask := if wasActive then None else Some(item.id);
      if !wasActive {
        taskDetails := EmptyDraft;
      }
    }

    /** `handleInputChange`: changes one draft field and nothing else. */
    method HandleInputChange(field: DraftField, value: string)
      requires Valid()
      modifies this
      ensures Valid()
      ensures Expansion(activeTask, taskDetails) == Edit(old(Expansion(activeTask, taskDetails)), field, value)
      ensures checklist == old(checklist) && checkedItems == old(checkedItems)
      ensures error == old(error) && requests == old(requests)
    {
      taskDetails := taskDetails.With(field, value);
    }

    /**
     * `toggleCompletion`: swallows its own failures. Only an ok response triggers
     * the reload; anything else sets the toggle error.
     */
    method ToggleCompletion(userId: string, checklistType: Label, taskId: Id, isCompleted: bool,
                            toggle: Reply<()>, reload: seq<Response>)
      requires Valid() && |reload| == |Labels|
      modifies this
      ensures Valid()
      ensures requests == old(requests) + [PutToggleCompletion(userId, checklistType, taskId, isCompleted)]
                          + (if IsOk(toggle) then FanOut(GetPriority, userId) else [])
      ensures checklist == if IsOk(toggle) then AfterLoad(old(checklist), reload) else old(checklist)
      ensures error == if !IsOk(toggle) then ToggleError
                       else if AllSettled(reload) then old(error) else FetchError
      ensures activeTask == old(activeTask) && taskDetails == old(taskDetails)
    {
      requests := requests + [PutToggleCompletion(userId, checklistType, taskId, isCompleted)];
      if IsOk(toggle) {
        FetchChecklist(userId, reload);
      } else {
        error := ToggleError;
      }
    }

    /**
     * `handleSave`: writes the activity from the current draft; only when the
     * backend declares success is that task toggled to completed, after which the
     * panel collapses whatever the toggle's outcome. The draft is not cleared.
     */
    method HandleSave(userId: string, date: string, time: string, checklistType: Label, item: Task,
                      activity: Reply<()>, toggle: Reply<()>, reload: seq<Response>)
      requires Valid() && |reload| == |Labels|
      modifies this
      ensures Valid()
      ensures requests == old(requests)
                          + [CreateActivity(userId, date, item.name, time, old(taskDetails).context, old(taskDetails).feeling)]
                          + (if !DeclaresSuccess(activity) then []
                             else [PutToggleCompletion(userId, checklistType, item.id, true)]
                                  + (if IsOk(toggle) then FanOut(GetPriority, userId) else []))
      ensures checklist == if DeclaresSuccess(activity) && IsOk(toggle) then AfterLoad(old(checklist), reload)
                           else old(checklist)
      ensures error == if !DeclaresSuccess(activity) then SaveError
                       else if !IsOk(toggle) then ToggleError
                       else if AllSettled(reload) then old(error) else FetchError
      ensures activeTask == if DeclaresSuccess(activity) then None else old(activeTask)
      ensures taskDetails == old(taskDetails)
    {
      var act := CreateActivity(userId, date, item.name, time, taskDetails.context, taskDetails.feeling);
      requests := requests + [act];
      if DeclaresSuccess(activity) {
        ToggleCompletion(userId, checklistType, item.id, true, toggle, reload);
        activeTask := None;
      } else {
        error := SaveError;
      }
    }
  }
}

/**
 * What the two checklist views (the main view and the low-priority panel) share:
 * the five checklist-type labels, the filter that assembles the groups from the
 * per-label responses, the checked-state projection built from those groups, the
 * single-active-task expansion machine with its reflection draft, and the requests
 * the views issue.
 */
module Checklist {
  import opened Http

  // ---------------------------------------------------------------------------
  // Labels, tasks and groups
  // ---------------------------------------------------------------------------

  /** The five fixed checklist types, in display order. */
  datatype Label = Morning | LateMorning | Afternoon | Evening | Night
  {
    /** Position of the label in `Labels`. */
    function Index(): nat
    {
      match this
      case Morning => 0
      case LateMorning => 1
      case Afternoon => 2
      case Evening => 3
      case Night => 4
    }
  }

  const Labels: seq<Label> := [Morning, LateMorning, Afternoon, Evening, Night]

  type Id = string

  /** A task as the backend returns it; `id` is the item's `_id`. */
  datatype Task = Task(id: Id, name: string, note: string, completed: bool, priority: string)

  /** One entry of a view's `checklist`: a label and the items the backend returned for it. */
  datatype Group = Group(checklistType: Label, items: seq<Task>)

  /** The settled outcome of one per-label retrieval request. */
  type Response = Reply<seq<Task>>

  /** The fan-in barrier: the whole load fails as soon as one request threw. */
  predicate AllSettled(replies: seq<Response>)
  {
    forall i :: 0 <= i < |replies| ==> replies[i].Replied?
  }

  // ---------------------------------------------------------------------------
  // Group assembly (the `reduce` over the responses)
  // ---------------------------------------------------------------------------

  /** `Labels` lists every label once, each at its own index. */
  lemma LabelAt(i: nat)
    requires i < |Labels|
    ensures Labels[i].Index() == i
  {
  }

  /**
   * The groups assembled from the responses, the i-th response belonging to
   * `Labels[i]`: a response that passes `ok && success` contributes its label and
   * its data; any other response is dropped (see `CombineSound` and `CombineComplete`).
   */
  function Combine(replies: seq<Response>): (r: seq<Group>)
    requires |replies| <= |Labels|
    ensures |r| <= |replies|
  {
    if replies == [] then []
    else
      var n := |replies| - 1;
      var acc := Combine(replies[..n]);
      if Accepted(replies[n]) then acc + [Group(Labels[n], replies[n].data)] else acc
  }

  /** Every group comes from a response that passed, under its label, with its data unchanged. */
  lemma {:induction false} CombineSound(replies: seq<Response>)
    requires |replies| <= |Labels|
    ensures forall j :: 0 <= j < |Combine(replies)| ==>
              var g := Combine(replies)[j];
              g.checklistType.Index() < |replies| &&
              Accepted(replies[g.checklistType.Index()]) &&
              g.items == replies[g.checklistType.Index()].data
  {
    if replies != [] {
      var n := |replies| - 1;
      CombineSound(replies[..n]);
      LabelAt(n);
      var acc := Combine(replies[..n]);
      forall j | 0 <= j < |acc|
        ensures acc[j].checklistType.Index() < n && replies[acc[j].checklistType.Index()] == replies[..n][acc[j].checklistType.Index()]
      {
      }
    }
  }

  /** Groups appear in the fixed label order. */
  lemma {:induction false} CombineOrdered(replies: seq<Response>)
    requires |replies| <= |Labels|
    ensures forall j, k :: 0 <= j < k < |Combine(replies)| ==>
              Combine(replies)[j].checklistType.Index() < Combine(replies)[k].checklistType.Index()
  {
    if replies != [] {
      var n := |replies| - 1;
      CombineOrdered(replies[..n]);
      CombineSound(replies[..n]);
      LabelAt(n);
    }
  }

  /** The label of a response that passed is present. */
  lemma {:induction false} CombineKeeps(replies: seq<Response>, i: nat)
    requires |replies| <= |Labels| && i < |replies| && Accepted(replies[i])
    ensures exists j :: 0 <= j < |Combine(replies)| && Combine(replies)[j] == Group(Labels[i], replies[i].data)
  {
    var n := |replies| - 1;
    var acc := Combine(replies[..n]);
    if i < n {
      CombineKeeps(replies[..n], i);
      var j :| 0 <= j < |acc| && acc[j] == Group(Labels[i], replies[..n][i].data);
      assert Combine(replies)[j] == acc[j];
    } else {
      assert Combine(replies)[|acc|] == Group(Labels[n], replies[n].data);
    }
  }

  /** The label of a response that failed is absent. */
  lemma CombineDrops(replies: seq<Response>, i: nat)
    requires |replies| <= |Labels| && i < |replies| && !Accepted(replies[i])
    ensures forall j :: 0 <= j < |Combine(replies)| ==> Combine(replies)[j].checklistType != Labels[i]
  {
    CombineSound(replies);
    LabelAt(i);
  }

  /** A label is present exactly when its response passed: failed labels are absent, not empty. */
  lemma CombineComplete(replies: seq<Response>, i: nat)
    requires |replies| <= |Labels| && i < |replies|
    ensures Accepted(replies[i]) <==> exists j :: 0 <= j < |Combine(replies)| && Combine(replies)[j].checklistType == Labels[i]
  {
    if Accepted(replies[i]) {
      CombineKeeps(replies, i);
    } else {
      CombineDrops(replies, i);
    }
  }

  /** When every response passes, there is one group per label, in label order. */
  lemma {:induction false} CombineAllAccepted(replies: seq<Response>)
    requires |replies| <= |Labels|
    requires forall i :: 0 <= i < |replies| ==> Accepted(replies[i])
    ensures |Combine(replies)| == |replies|
    ensures forall i :: 0 <= i < |replies| ==> replies[i].Replied? && Combine(replies)[i] == Group(Labels[i], replies[i].data)
  {
    if replies != [] {
      CombineAllAccepted(replies[..|replies| - 1]);
    }
  }

  /**
   * When exactly one response fails, the failed label is the only one missing:
   * with all five labels that leaves four groups.
   */
  lemma {:induction false} CombineOneRejected(replies: seq<Response>, bad: nat)
    requires |replies| <= |Labels| && bad < |replies|
    requires !Accepted(replies[bad])
    requires forall i :: 0 <= i < |replies| && i != bad ==> Accepted(replies[i])
    ensures |Combine(replies)| == |replies| - 1
    ensures forall j :: 0 <= j < |Combine(replies)| ==> Combine(replies)[j].checklistType != Labels[bad]
  {
    var n := |replies| - 1;
    if bad == n {
      CombineAllAccepted(replies[..n]);
    } else {
      CombineOneRejected(replies[..n], bad);
    }
  }

  /**
   * The `checklist` after a load: when every request settled, a label is shown
   * exactly when its response passed; when one rejected, the old groups stay.
   */
  function AfterLoad(current: seq<Group>, replies: seq<Response>): (r: seq<Group>)
    requires |replies| == |Labels|
    ensures !AllSettled(replies) ==> r == current
    ensures AllSettled(replies) ==>
              forall i :: 0 <= i < |Labels| ==>
                (Accepted(replies[i]) <==> exists j :: 0 <= j < |r| && r[j].checklistType == Labels[i])
  {
    if AllSettled(replies) then
      assert forall i :: 0 <= i < |Labels| ==>
               (Accepted(replies[i]) <==> exists j :: 0 <= j < |Combine(replies)| && Combine(replies)[j].checklistType == Labels[i]) by {
        forall i | 0 <= i < |Labels| {
          CombineComplete(replies, i);
        }
      }
      Combine(replies)
    else current
  }

  // ---------------------------------------------------------------------------
  // Checked-state projection
  // ---------------------------------------------------------------------------

  /** All items of all groups, group by group. */
  function Flatten(groups: seq<Group>): seq<Task>
  {
    if groups == [] then []
    else Flatten(groups[..|groups| - 1]) + groups[|groups| - 1].items
  }

  /** An item is flattened exactly when it belongs to one of the groups. */
  lemma {:induction false} FlattenMembers(groups: seq<Group>, t: Task)
    ensures t in Flatten(groups) <==> exists g :: g in groups && t in g.items
  {
    if groups != [] {
      var n := |groups| - 1;
      FlattenMembers(groups[..n], t);
      if t in Flatten(groups[..n]) {
        var g :| g in groups[..n] && t in g.items;
        assert g in groups;
      }
      if exists g :: g in groups && t in g.items {
        var g :| g in groups && t in g.items;
        if g != groups[n] {
          assert g in groups[..n];
        }
      }
    }
  }

  /** No later item carries the same id as `items[i]`. */
  predicate IsLastWithId(items: seq<Task>, i: nat)
    requires i < |items|
  {
    forall j :: i < j < |items| ==> items[j].id != items[i].id
  }

  /**
   * The `completed` projection written item by item into an empty dictionary
   * (see `ProjectKeys` and `ProjectLastWins` for what it holds).
   */
  function Project(items: seq<Task>): (m: map<Id, bool>)
    ensures |m| <= |items|
  {
    if items == [] then map[]
    else
      var n := |items| - 1;
      Project(items[..n])[items[n].id := items[n].completed]
  }

  /** The keys are exactly the ids present: nothing from an earlier load survives. */
  lemma {:induction false} ProjectKeys(items: seq<Task>, k: Id)
    ensures k in Project(items) <==> exists i :: 0 <= i < |items| && items[i].id == k
  {
    if items != [] {
      var n := |items| - 1;
      ProjectKeys(items[..n], k);
      if k != items[n].id && exists i :: 0 <= i < |items| && items[i].id == k {
        var i :| 0 <= i < |items| && items[i].id == k;
        assert items[..n][i].id == k;
      }
    }
  }

  /** For each id, the value is the `completed` flag of the last item carrying it. */
  lemma {:induction false} ProjectLastWins(items: seq<Task>, i: nat)
    requires i < |items| && IsLastWithId(items, i)
    ensures items[i].id in Project(items) && Project(items)[items[i].id] == items[i].completed
  {
    var n := |items| - 1;
    if i < n {
      assert IsLastWithId(items[..n], i) by {
        forall j | i < j < n ensures items[..n][j].id != items[..n][i].id {
          assert items[j].id != items[i].id;
        }
      }
      ProjectLastWins(items[..n], i);
      assert items[..n][i] == items[i];
    }
  }

  /** Ids that are pairwise distinct, as the backend promises within a load. */
  predicate DistinctIds(items: seq<Task>)
  {
    forall i, j :: 0 <= i < j < |items| ==> items[i].id != items[j].id
  }

  /** With distinct ids the projection holds exactly one entry per item, equal to its flag. */
  lemma {:induction false} ProjectOneEntryPerItem(items: seq<Task>)
    requires DistinctIds(items)
    ensures |Project(items)| == |items|
    ensures forall i :: 0 <= i < |items| ==>
              items[i].id in Project(items) && Project(items)[items[i].id] == items[i].completed
  {
    if items != [] {
      var n := |items| - 1;
      ProjectOneEntryPerItem(items[..n]);
      ProjectKeys(items[..n], items[n].id);
      forall i | 0 <= i < n ensures items[..n][i].id != items[n].id {
      }
      assert items[n].id !in Project(items[..n]);
    }
    forall i | 0 <= i < |items|
      ensures items[i].id in Project(items) && Project(items)[items[i].id] == items[i].completed
    {
      ProjectLastWins(items, i);
    }
  }

  /**
   * The nested loops that fill `updatedCheckedItems`: a fresh dictionary,
   * written once per item of every group, in order.
   */
  method BuildCheckedItems(groups: seq<Group>) returns (m: map<Id, bool>)
    ensures m == Project(Flatten(groups))
  {
    m := map[];
    var g := 0;
    assert groups[..g] == [];
    while g < |groups|
      invariant 0 <= g <= |groups|
      invariant m == Project(Flatten(groups[..g]))
    {
      var items := groups[g].items;
      var done := Flatten(groups[..g]);
      var i := 0;
      assert done + items[..i] == done;
      while i < |items|
        invariant 0 <= i <= |items|
        invariant m == Project(done + items[..i])
      {
        ProjectStep(done, items, i);
        m := m[items[i].id := items[i].completed];
        i := i + 1;
      }
      assert items[..i] == items;
      FlattenPrefix(groups, g);
      g := g + 1;
    }
    assert groups[..g] == groups;
  }

  /** Writing one more item into the projection. */
  lemma ProjectStep(done: seq<Task>, items: seq<Task>, i: nat)
    requires i < |items|
    ensures Project(done + items[..i + 1]) == Project(done + items[..i])[items[i].id := items[i].completed]
  {
    var next := done + items[..i + 1];
    assert next[..|next| - 1] == done + items[..i];
  }

  /** Flattening one more group appends its items. */
  lemma FlattenPrefix(groups: seq<Group>, g: nat)
    requires g < |groups|
    ensures Flatten(groups[..g + 1]) == Flatten(groups[..g]) + groups[g].items
  {
    assert groups[..g + 1][..g] == groups[..g];
  }

  /** The checkbox dictionary a view renders is the projection of the groups it shows. */
  predicate Mirrors(groups: seq<Group>, checked: map<Id, bool>)
  {
    checked == Project(Flatten(groups))
  }

  /**
   * What a load hands back to a view: the groups and checkbox dictionary to show
   * next. When every request settled both are rebuilt from the replies; when one
   * rejected the view keeps what it had.
   */
  method Load(current: seq<Group>, checked: map<Id, bool>, replies: seq<Response>)
      returns (groups: seq<Group>, nextChecked: map<Id, bool>)
    requires Mirrors(current, checked) && |replies| == |Labels|
    ensures groups == AfterLoad(current, replies) && Mirrors(groups, nextChecked)
  {
    if AllSettled(replies) {
      groups := Combine(replies);
      nextChecked := BuildCheckedItems(groups);
    } else {
      groups, nextChecked := current, checked;
    }
  }

  // ---------------------------------------------------------------------------
  // The expansion machine and the reflection draft
  // ---------------------------------------------------------------------------

  /** The reflection note captured in an expanded task's panel. */
  datatype Draft = Draft(feeling: string, context: string, time: string)
  {
    function With(field: DraftField, value: string): Draft
    {
      match field
      case Feeling => this.(feeling := value)
      case Context => this.(context := value)
      case Time => this.(time := value)
    }
  }

  const EmptyDraft := Draft("", "", "")

  datatype DraftField = Feeling | Context | Time

  /** `activeTask` and `taskDetails` taken together. */
  datatype Expansion = Expansion(active: Option<Id>, draft: Draft)

  /**
   * A click on a task's checkbox: the active task collapses (its draft is kept);
   * any other task becomes the only active one, with an empty draft.
   */
  function Click(e: Expansion, id: Id): (r: Expansion)
    ensures r.active == Some(id) <==> e.active != Some(id)
    ensures r.active == None <==> e.active == Some(id)
  {
    if e.active == Some(id) then Expansion(None, e.draft) else Expansion(Some(id), EmptyDraft)
  }

  /** An edit of one draft field; the active task is untouched. */
  function Edit(e: Expansion, field: DraftField, value: string): (r: Expansion)
    ensures r.active == e.active
    ensures r.draft.feeling == (if field == Feeling then value else e.draft.feeling)
    ensures r.draft.context == (if field == Context then value else e.draft.context)
    ensures r.draft.time == (if field == Time then value else e.draft.time)
  {
    e.(draft := e.draft.With(field, value))
  }

  /** The user's interactions with the panel, in the order they happen. */
  datatype Event = ClickOn(id: Id) | Type(field: DraftField, value: string)

  function Step(e: Expansion, ev: Event): Expansion
  {
    match ev
    case ClickOn(id) => Click(e, id)
    case Type(field, value) => Edit(e, field, value)
  }

  function Run(e: Expansion, evs: seq<Event>): Expansion
  {
    if evs == [] then e else Step(Run(e, evs[..|evs| - 1]), evs[|evs| - 1])
  }

  /** The draft that results from typing `evs` into `d` (clicks are ignored). */
  function Typed(d: Draft, evs: seq<Event>): Draft
  {
    if evs == [] then d
    else
      var last := evs[|evs| - 1];
      var before := Typed(d, evs[..|evs| - 1]);
      if last.Type? then before.With(last.field, last.value) else before
  }

  /** The position of the last click, after which only typing happened. */
  function LastClick(evs: seq<Event>): (k: Option<nat>)
    ensures k.Some? ==> k.value < |evs| && evs[k.value].ClickOn? &&
                        forall j :: k.value < j < |evs| ==> evs[j].Type?
    ensures k.None? ==> forall j :: 0 <= j < |evs| ==> evs[j].Type?
  {
    if evs == [] then None
    else if evs[|evs| - 1].ClickOn? then Some(|evs| - 1)
    else LastClick(evs[..|evs| - 1])
  }

  /**
   * Starting collapsed, whenever a task is expanded it is the one of the last
   * click, and the draft holds exactly what was typed since that click: nothing
   * typed for another task, or before a collapse, survives.
   */
  lemma {:induction false} ExpandedDraftIsTypedSinceOpening(e: Expansion, evs: seq<Event>)
    requires e.active == None
    ensures Run(e, evs).active.Some? ==>
              LastClick(evs).Some? &&
              evs[LastClick(evs).value] == ClickOn(Run(e, evs).active.value) &&
              Run(e, evs).draft == Typed(EmptyDraft, evs[LastClick(evs).value + 1..])
  {
    if evs != [] {
      var n := |evs| - 1;
      var before := Run(e, evs[..n]);
      var after := Run(e, evs);
      assert after == Step(before, evs[n]);
      if evs[n].Type? {
        ExpandedDraftIsTypedSinceOpening(e, evs[..n]);
        if after.active.Some? {
          var k := LastClick(evs[..n]).value;
          assert LastClick(evs) == Some(k);
          assert evs[k + 1..][..|evs[k + 1..]| - 1] == evs[..n][k + 1..];
          assert evs[k + 1..][|evs[k + 1..]| - 1] == evs[n];
        }
      } else {
        assert evs[n + 1..] == [];
      }
    }
  }

  /** Expanding A, typing, then expanding B leaves only B expanded, with an empty draft. */
  lemma SwitchingTasksResetsDraft(e: Expansion, a: Id, b: Id, field: DraftField, value: string)
    requires e.active == None && a != b
    ensures Run(e, [ClickOn(a), Type(field, value), ClickOn(b)]) == Expansion(Some(b), EmptyDraft)
    ensures Run(e, [ClickOn(a), Type(field, value), ClickOn(a)]) == Expansion(None, EmptyDraft.With(field, value))
  {
    var open := [ClickOn(a)];
    var typed := open + [Type(field, value)];
    assert open[..0] == [];
    assert Run(e, open) == Expansion(Some(a), EmptyDraft);
    assert typed[..1] == open;
    assert Run(e, typed) == Expansion(Some(a), EmptyDraft.With(field, value));
    assert (typed + [ClickOn(b)])[..2] == typed;
    assert (typed + [ClickOn(a)])[..2] == typed;
    assert typed + [ClickOn(b)] == [ClickOn(a), Type(field, value), ClickOn(b)];
    assert typed + [ClickOn(a)] == [ClickOn(a), Type(field, value), ClickOn(a)];
  }

  // ---------------------------------------------------------------------------
  // Requests issued to the backend
  // ---------------------------------------------------------------------------

  datatype Endpoint = GetPriority | GetLowPriority

  datatype CustomItem = CustomItem(name: string, note: string, completed: bool, priority: string)

  datatype Request =
    | GetChecklist(endpoint: Endpoint, userId: string, checklistType: Label)
    | CreateActivity(userId: string, date: string, name: string, time: string, context: string, feeling: string)
    | PutToggleCompletion(userId: string, checklistType: Label, taskId: Id, isCompleted: bool)
    | CreateChecklist(userId: string, checklistType: Label, customItems: seq<CustomItem>)

  /** One retrieval request per label, in label order. */
  function FanOut(endpoint: Endpoint, userId: string): seq<Request>
  {
    [ GetChecklist(endpoint, userId, Morning), GetChecklist(endpoint, userId, LateMorning),
      GetChecklist(endpoint, userId, Afternoon), GetChecklist(endpoint, userId, Evening),
      GetChecklist(endpoint, userId, Night) ]
  }
}

/** `ProjectList` (src/components/project-list.ts, duplicated in
    src/app.ts:285-368): one list per status that keeps the store's projects
    of its status and serves as a drop target. */
module ProjectListComponent {
  import opened Wrappers
  import opened ProjectModel
  import opened StateManagement
  import opened DragDrop

  /** The constructor's `type`: "active" or "finished". */
  datatype ListType = ActiveList | FinishedList

  /** The status a drop onto a list of this type moves a project to. */
  function TargetStatus(listType: ListType): ProjectStatus {
    if listType == ActiveList then Active else Finished
  }

  /** The callback given to `projects.filter` in the listener. */
  predicate Keeps(listType: ListType, project: Project) {
    if listType == ActiveList then project.status == Active else project.status == Finished
  }

  /** `projects.filter(...)`: the projects this list shows. */
  function Relevant(projects: seq<Project>, listType: ListType): seq<Project> {
    if projects == [] then []
    else (if Keeps(listType, projects[0]) then [projects[0]] else []) + Relevant(projects[1..], listType)
  }

  /** A list shows exactly the snapshot's projects whose status is the one a
      drop onto that list sets. */
  lemma {:induction false} RelevantMembers(projects: seq<Project>, listType: ListType)
    ensures forall p :: p in Relevant(projects, listType) <==> p in projects && p.status == TargetStatus(listType)
  {
    if projects != [] {
      RelevantMembers(projects[1..], listType);
      assert projects == [projects[0]] + projects[1..];
    }
  }

  /** Filtering keeps snapshot order: filtering a concatenation concatenates
      the filtered parts. */
  lemma {:induction false} RelevantAppend(front: seq<Project>, back: seq<Project>, listType: ListType)
    ensures Relevant(front + back, listType) == Relevant(front, listType) + Relevant(back, listType)
  {
    if front == [] {
      assert front + back == back;
    } else {
      var head, rest := front[0], front[1..];
      var kept := if Keeps(listType, head) then [head] else [];
      assert front + back == [head] + (rest + back);
      RelevantAppend(rest, back, listType);
      calc {
        Relevant(front + back, listType);
        kept + Relevant(rest + back, listType);
        kept + (Relevant(rest, listType) + Relevant(back, listType));
        (kept + Relevant(rest, listType)) + Relevant(back, listType);
      }
    }
  }

  /** Each project of a snapshot lands in exactly one of the two lists. */
  lemma {:induction false} SplitCounts(projects: seq<Project>)
    ensures multiset(Relevant(projects, ActiveList)) + multiset(Relevant(projects, FinishedList)) == multiset(projects)
  {
    if projects != [] {
      var head, rest := projects[0], projects[1..];
      var keptActive := if Keeps(ActiveList, head) then [head] else [];
      var keptFinished := if Keeps(FinishedList, head) then [head] else [];
      SplitCounts(rest);
      assert multiset(projects) == multiset{head} + multiset(rest) by {
        assert projects == [head] + rest;
      }
      assert multiset(keptActive) + multiset(keptFinished) == multiset{head};
      assert Relevant(projects, ActiveList) == keptActive + Relevant(rest, ActiveList);
      assert Relevant(projects, FinishedList) == keptFinished + Relevant(rest, FinishedList);
    }
  }

  /** The active and the finished list split every snapshot: together they
      hold each project as often as the snapshot does, and no project is in
      both. */
  lemma ListsPartition(projects: seq<Project>)
    ensures multiset(Relevant(projects, ActiveList)) + multiset(Relevant(projects, FinishedList)) == multiset(projects)
    ensures |Relevant(projects, ActiveList)| + |Relevant(projects, FinishedList)| == |projects|
    ensures forall p :: !(p in Relevant(projects, ActiveList) && p in Relevant(projects, FinishedList))
  {
    RelevantMembers(projects, ActiveList);
    RelevantMembers(projects, FinishedList);
    SplitCounts(projects);
    assert |multiset(projects)| == |projects|;
  }

  /** Replacing one project changes the size of a list by what the old and
      the new version contribute to it. */
  lemma RelevantUpdate(projects: seq<Project>, i: nat, project: Project, listType: ListType)
    requires i < |projects|
    ensures |Relevant(projects[i := project], listType)| ==
      |Relevant(projects, listType)|
        - (if Keeps(listType, projects[i]) then 1 else 0)
        + (if Keeps(listType, project) then 1 else 0)
  {
    var front, back := projects[..i], projects[i + 1..];
    assert projects == front + [projects[i]] + back;
    assert projects[i := project] == front + [project] + back;
    RelevantAppend(front + [projects[i]], back, listType);
    RelevantAppend(front, [projects[i]], listType);
    RelevantAppend(front + [project], back, listType);
    RelevantAppend(front, [project], listType);
  }

  /** Dropping a stored project onto a list (with unique ids) puts it in that
      list and out of the other; the list grows by one and the other shrinks
      by one exactly when the project came from the other list. */
  lemma DropMovesBetweenLists(projects: seq<Project>, id: string, listType: ListType)
    requires UniqueIds(projects) && HasId(projects, id)
    ensures var moved := MoveResult(projects, id, TargetStatus(listType));
      var other := if listType == ActiveList then FinishedList else ActiveList;
      var i := FindIndex(projects, id).value;
      var came := if projects[i].status != TargetStatus(listType) then 1 else 0;
      && moved[i] in Relevant(moved, listType)
      && moved[i] !in Relevant(moved, other)
      && |Relevant(moved, listType)| == |Relevant(projects, listType)| + came
      && |Relevant(moved, other)| == |Relevant(projects, other)| - came
  {
    var moved := MoveResult(projects, id, TargetStatus(listType));
    var other := if listType == ActiveList then FinishedList else ActiveList;
    var i := FindIndex(projects, id).value;
    MoveWithUniqueIds(projects, id, TargetStatus(listType));
    RelevantMembers(moved, listType);
    RelevantMembers(moved, other);
    if projects[i].status != TargetStatus(listType) {
      assert moved == projects[i := projects[i].(status := TargetStatus(listType))];
      RelevantUpdate(projects, i, moved[i], listType);
      RelevantUpdate(projects, i, moved[i], other);
    } else {
      assert moved == projects;
    }
  }

  class ProjectList {
    const listType: ListType
    /** `assignedProjects`: what the list currently shows. */
    var assignedProjects: seq<Project>
    /** Whether the list element carries the "droppable" class. */
    var droppable: bool

    /** The constructor: starts with no projects and registers the list's
        listener (`listener`) with the store, as `configure` does. */
    constructor (listType: ListType, state: ProjectState, listener: ListenerId)
      modifies state`listeners
      ensures this.listType == listType && assignedProjects == [] && !droppable
      ensures state.listeners == old(state.listeners) + [listener]
    {
      this.listType := listType;
      assignedProjects := [];
      droppable := false;
      new;
      state.AddListener(listener);
    }

    /** The listener registered in `configure`, called with a snapshot:
        the list now shows exactly the snapshot's projects of its status, in
        snapshot order. */
    method OnProjectsChanged(projects: seq<Project>)
      modifies this`assignedProjects
      ensures assignedProjects == Relevant(projects, listType)
    {
      assignedProjects := Relevant(projects, listType);
    }

    /** `dragOverHandler`: the drag is accepted (`preventDefault`) and the list
        marked droppable only when there is a payload whose first format is
        plain text; otherwise nothing changes. */
    method DragOverHandler(transfer: Option<DataTransfer>) returns (accepted: bool)
      modifies this`droppable
      ensures accepted <==> transfer.Some? && |Types(transfer.value)| > 0 && Types(transfer.value)[0] == PlainText
      ensures droppable == (old(droppable) || accepted)
    {
      accepted := transfer.Some? && |Types(transfer.value)| > 0 && Types(transfer.value)[0] == PlainText;
      if accepted {
        droppable := true;
      }
    }

    /** `dropHandler`: moves the project whose id is the payload's plain text
        to this list's status. */
    method DropHandler(state: ProjectState, transfer: DataTransfer)
      modifies state`projects, state`notifications
      ensures old(state.Valid()) ==> state.Valid()
      ensures state.projects == MoveResult(old(state.projects), GetData(transfer, PlainText), TargetStatus(listType))
      ensures state.notifications == old(state.notifications) +
        if MoveChanges(old(state.projects), GetData(transfer, PlainText), TargetStatus(listType))
        then Broadcast(state.listeners, state.projects) else []
    {
      var prjId := GetData(transfer, PlainText);
      state.MoveProject(prjId, TargetStatus(listType));
    }

    /** `dragLeaveHandler`: only clears the droppable mark; the store is not
        in its frame. */
    method DragLeaveHandler()
      modifies this`droppable
      ensures !droppable
    {
      droppable := false;
    }
  }
}

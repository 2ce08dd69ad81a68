/** The observable project store: `State.addListener` and the `ProjectState`
    singleton (src/util/state-management.ts; the same class appears again in
    src/app.ts:55-113 and is modelled once).

    A listener is identified by a `ListenerId`; calling it is recorded in the
    ghost log `notifications` as the listener and the snapshot it received. */
module StateManagement {
  import opened Wrappers
  import opened ProjectModel

  /** The identity of a callback passed to `addListener`. */
  type ListenerId = nat

  /** One call `listenerFn(snapshot)`. */
  datatype Notification = Notification(listener: ListenerId, snapshot: seq<Project>)

  /** The calls made by one pass over the listeners: one call per registered
      listener, in registration order, each with the whole project list. */
  function Broadcast(listeners: seq<ListenerId>, snapshot: seq<Project>): (calls: seq<Notification>)
    ensures |calls| == |listeners|
    ensures forall k :: 0 <= k < |calls| ==> calls[k] == Notification(listeners[k], snapshot)
  {
    if listeners == [] then [] else [Notification(listeners[0], snapshot)] + Broadcast(listeners[1..], snapshot)
  }

  /** The position `projects.find(prj => prj.id === id)` stops at: the first
      project with that id, or none. */
  function FindIndex(projects: seq<Project>, id: string): (found: Option<nat>)
    ensures found.None? <==> !HasId(projects, id)
    ensures found.Some? ==>
      && found.value < |projects|
      && projects[found.value].id == id
      && forall k :: 0 <= k < found.value ==> projects[k].id != id
  {
    if projects == [] then None
    else if projects[0].id == id then Some(0)
    else
      match FindIndex(projects[1..], id)
      case None =>
        assert forall k :: 1 <= k < |projects| ==> projects[k] == projects[1..][k - 1];
        None
      case Some(i) => Some(i + 1)
  }

  /** `moveProject(id, newStatus)` changes something: some project has the
      id, and the first one does not already have `newStatus`. */
  predicate MoveChanges(projects: seq<Project>, id: string, newStatus: ProjectStatus) {
    var found := FindIndex(projects, id);
    found.Some? && projects[found.value].status != newStatus
  }

  /** The project list after `moveProject(id, newStatus)`. */
  function MoveResult(projects: seq<Project>, id: string, newStatus: ProjectStatus): seq<Project> {
    var found := FindIndex(projects, id);
    if MoveChanges(projects, id, newStatus) then
      projects[found.value := projects[found.value].(status := newStatus)]
    else projects
  }

  /** Moving never adds, drops or reorders projects and never touches a field
      other than `status`; the only project that may differ is the first one
      with the id, which then has `newStatus`. The list changes exactly when
      `MoveChanges` holds, which is when the store notifies. */
  lemma MoveChangesOnlyFirstMatch(projects: seq<Project>, id: string, newStatus: ProjectStatus)
    ensures var moved := MoveResult(projects, id, newStatus);
      && |moved| == |projects|
      && (forall k :: 0 <= k < |projects| ==> moved[k].(status := projects[k].status) == projects[k])
      && (forall k :: 0 <= k < |projects| && moved[k] != projects[k] ==>
            && projects[k].id == id
            && moved[k].status == newStatus
            && forall j :: 0 <= j < k ==> projects[j].id != id)
      && (moved != projects <==> MoveChanges(projects, id, newStatus))
  {
    var moved := MoveResult(projects, id, newStatus);
    if MoveChanges(projects, id, newStatus) {
      var i := FindIndex(projects, id).value;
      assert moved[i] != projects[i];
    }
  }

  /** With unique ids, moving sets the status of the one project with the id
      (if any) and leaves every other project as it was; in particular an
      absent id or an unchanged status leaves the list as it was. */
  lemma MoveWithUniqueIds(projects: seq<Project>, id: string, newStatus: ProjectStatus)
    requires UniqueIds(projects)
    ensures var moved := MoveResult(projects, id, newStatus);
      && |moved| == |projects|
      && (forall k :: 0 <= k < |projects| ==>
            moved[k] == if projects[k].id == id then projects[k].(status := newStatus) else projects[k])
      && (moved == projects <==>
            forall k :: 0 <= k < |projects| && projects[k].id == id ==> projects[k].status == newStatus)
      && UniqueIds(moved)
  {
    var moved := MoveResult(projects, id, newStatus);
    var found := FindIndex(projects, id);
    if found.Some? {
      var i := found.value;
      forall k | 0 <= k < |projects| && projects[k].id == id ensures k == i {
      }
    }
  }

  class ProjectState {
    /** `listeners`, in registration order. */
    var listeners: seq<ListenerId>
    /** `projects`, in insertion order. */
    var projects: seq<Project>
    /** Every listener call made so far, oldest first. */
    ghost var notifications: seq<Notification>

    ghost predicate Valid()
      reads this
    {
      UniqueIds(projects)
    }

    /** The private constructor: no listeners, no projects. */
    constructor ()
      ensures Valid()
      ensures listeners == [] && projects == [] && notifications == []
    {
      listeners := [];
      projects := [];
      notifications := [];
    }

    /** `addListener(listenerFn)`: appends the listener; projects and
        notifications are untouched (the frame). */
    method AddListener(listenerFn: ListenerId)
      modifies this`listeners
      ensures listeners == old(listeners) + [listenerFn]
    {
      listeners := listeners + [listenerFn];
    }

    /** `addProject(title, description, numOfPeople)`. `id` stands for the
        random token the source generates and must be fresh. The new Active
        project goes last, every earlier project is kept, and every listener
        is called once, in order, with the whole new list. */
    method AddProject(id: string, title: string, description: string, numOfPeople: int)
      requires Valid()
      requires !HasId(projects, id)
      modifies this`projects, this`notifications
      ensures Valid()
      ensures projects == old(projects) + [Project(id, title, description, numOfPeople, Active)]
      ensures notifications == old(notifications) + Broadcast(listeners, projects)
    {
      projects := projects + [Project(id, title, description, numOfPeople, Active)];
      UpdateListeners();
    }

    /** `moveProject(projectId, newStatus)`: sets the status of the first
        project with the id and notifies every listener, unless there is no
        such project or it already has that status, in which case nothing
        changes and no listener is called. */
    method MoveProject(projectId: string, newStatus: ProjectStatus)
      modifies this`projects, this`notifications
      ensures old(Valid()) ==> Valid()
      ensures projects == MoveResult(old(projects), projectId, newStatus)
      ensures notifications == old(notifications) +
        if MoveChanges(old(projects), projectId, newStatus) then Broadcast(listeners, projects) else []
    {
      MoveChangesOnlyFirstMatch(projects, projectId, newStatus);
      var found := FindIndex(projects, projectId);
      if found.Some? && projects[found.value].status != newStatus {
        projects := projects[found.value := projects[found.value].(status := newStatus)];
        UpdateListeners();
      }
    }

    /** `updateListeners()` (and the identical loop at the end of
        `addProject`): calls each listener with a copy of the list. */
    method UpdateListeners()
      modifies this`notifications
      ensures notifications == old(notifications) + Broadcast(listeners, projects)
    {
      for k := 0 to |listeners|
        invariant notifications == old(notifications) + Broadcast(listeners[..k], projects)
      {
        notifications := notifications + [Notification(listeners[k], projects)];
      }
      assert listeners[..|listeners|] == listeners;
    }
  }

  /** The static `instance` slot behind `ProjectState.getInstance()`. */
  class InstanceSlot {
    var instance: ProjectState?

    constructor ()
      ensures instance == null
    {
      instance := null;
    }

    /** `getInstance()`: the first call creates an empty store, every later
        call returns that same store. */
    method GetInstance() returns (state: ProjectState)
      modifies this
      ensures instance == state
      ensures old(instance) != null ==> state == old(instance)
      ensures old(instance) == null ==>
        fresh(state) && state.Valid() && state.listeners == [] && state.projects == [] && state.notifications == []
    {
      if instance != null {
        return instance;
      }
      state := new ProjectState();
      instance := state;
    }
  }
}

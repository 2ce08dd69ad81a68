/** A client of the specifications above: the form and the two lists sharing
    one store, as src/app.ts:464-469 wires them, driven through one
    submission and one drag from the active to the finished list. Listener
    calls are delivered by hand, in the order the store records them. */
module Board {
  import opened Wrappers
  import opened JsRuntime
  import opened ProjectModel
  import opened StateManagement
  import opened DragDrop
  import opened ProjectItemComponent
  import opened ProjectListComponent
  import opened ProjectInputComponent

  /** Every call of `getInstance` hands out the same store. */
  method SingleStore() {
    var slot := new InstanceSlot();
    var state := slot.GetInstance();
    var again := slot.GetInstance();
    assert again == state && state.projects == [];
  }

  /** The example title and description are not blank, and the description
      is long enough. */
  lemma BuildApiText()
    ensures TitleAccepted("Build API") && DescriptionAccepted("Create REST endpoints")
  {
    assert "Build API"[0] == 'B';
    assert "Create REST endpoints"[0] == 'C';
  }

  /** The people field "5" reads as 5, which is in range. */
  lemma FivePeople()
    ensures PeopleAccepted("5") && ToNumber("5") == Finite(5)
  {
    ToNumberOfString(5);
    assert IntToString(5) == "5";
  }

  /** The example form passes, with 5 people. */
  lemma BuildApiPasses()
    ensures FormAccepted("Build API", "Create REST endpoints", "5") && ToNumber("5") == Finite(5)
  {
    BuildApiText();
    FivePeople();
  }

  /** A passing form submitted to an empty store leaves exactly the new
      Active project in it. */
  method SubmitForm(state: ProjectState, title: string, description: string, people: string, id: string)
    requires state.Valid() && state.projects == [] && FormAccepted(title, description, people)
    modifies state`projects, state`notifications
    ensures state.Valid()
    ensures state.projects == [Project(id, title, description, ToNumber(people).value, Active)]
  {
    var input := new ProjectInput(title, description, people);
    input.SubmitHandler(state, id);
  }

  /** A passing submission adds one Active project under the given id and
      leaves both list listeners registered on the store. */
  method Submit(title: string, description: string, people: string, id: string)
    returns (state: ProjectState, active: ProjectList, finished: ProjectList)
    requires FormAccepted(title, description, people)
    ensures state.Valid()
    ensures state.projects == [Project(id, title, description, ToNumber(people).value, Active)]
    ensures fresh(state) && fresh(active) && fresh(finished)
    ensures state.listeners == [0, 1]
    ensures active.listType == ActiveList && finished.listType == FinishedList
  {
    state := new ProjectState();
    active := new ProjectList(ActiveList, state, 0);
    finished := new ProjectList(FinishedList, state, 1);
    SubmitForm(state, title, description, people, id);
  }

  /** Dragging the only, active, project onto the finished list moves it
      there: both listeners are called, and on delivery the active list is
      empty and the finished list shows the project. The drop does not clear
      the finished list's droppable mark. */
  method DropOnFinished(state: ProjectState, active: ProjectList, finished: ProjectList)
    returns (transfer: DataTransfer)
    requires state.Valid() && |state.projects| == 1 && state.projects[0].status == Active
    requires state.listeners == [0, 1]
    requires active.listType == ActiveList && finished.listType == FinishedList && active != finished
    modifies state`projects, state`notifications, active`assignedProjects, finished`assignedProjects, finished`droppable
    ensures state.Valid() && state.listeners == [0, 1]
    ensures state.projects == [old(state.projects[0]).(status := Finished)]
    ensures |state.notifications| == |old(state.notifications)| + 2
    ensures active.assignedProjects == [] && finished.assignedProjects == state.projects
    ensures finished.droppable
    ensures GetData(transfer, PlainText) == state.projects[0].id
  {
    var submitted := state.projects;
    transfer := DragStart(DataTransfer([], "uninitialized"), submitted[0]);
    DragStartCarriesId(DataTransfer([], "uninitialized"), submitted[0]);
    var accepted := finished.DragOverHandler(Some(transfer));
    assert accepted && finished.droppable;
    finished.DropHandler(state, transfer);
    MoveWithUniqueIds(submitted, submitted[0].id, Finished);
    assert state.projects == [submitted[0].(status := Finished)];
    active.OnProjectsChanged(state.projects);
    finished.OnProjectsChanged(state.projects);
  }

  /** After a submission, the project can be dragged to the finished list;
      dropping it there a second time changes nothing and calls no listener. */
  method Finish(title: string, description: string, people: string, id: string)
    requires FormAccepted(title, description, people)
  {
    var state, active, finished := Submit(title, description, people, id);
    var transfer := DropOnFinished(state, active, finished);
    ghost var before := state.notifications;
    ghost var moved := state.projects;
    finished.DropHandler(state, transfer);
    MoveWithUniqueIds(moved, moved[0].id, Finished);
    assert state.projects == moved && state.notifications == before;
  }

  /** The "Build API" example with 5 people goes through. */
  method FinishBuildApi() {
    BuildApiPasses();
    Finish("Build API", "Create REST endpoints", "5", "p1");
  }

  /** A 4-character description is rejected before it reaches the store. */
  method RejectShortDescription(state: ProjectState)
    requires state.Valid() && !HasId(state.projects, "p2")
    modifies state
  {
    var input := new ProjectInput("Docs", "test", "5");
    ghost var before := state.projects;
    input.SubmitHandler(state, "p2");
    assert state.projects == before && input.descriptionValue == "test";
  }
}

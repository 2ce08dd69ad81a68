# Project board store, in Dafny

This project models the logic of a small browser project tracker. Users submit
a form with a title, a description and a number of people. New projects appear
in an "active" list, and dragging a project onto the "finished" list (or back)
changes its status. The model covers:

- the observable store `ProjectState`. It holds the ordered list of projects and
  the ordered list of listeners. `addProject` appends an Active project,
  `moveProject` changes the status of the first project with a given id, and
  every real change calls each listener with a copy of the whole list.
  `getInstance` hands out one shared store;
- `validate` and the rules the form applies to its three fields, plus the
  submit and clear steps of the form;
- the two list views. Each keeps the snapshot's projects of its own status,
  and each is a drop target that moves the dropped project to its own status;
- the project item's `persons` text and its drag-start payload.

Modules, one per source file or component:

| file | module | models |
|---|---|---|
| `wrappers.dfy` | `Wrappers` | `Option` |
| `project_model.dfy` | `ProjectModel` | `ProjectStatus`, `Project` (src/models/project-model.ts) |
| `js_runtime.dfy` | `JsRuntime` | `trim`, the string form of a number, unary `+` on a string |
| `validation.dfy` | `Validation` | `Validatable`, `validate` (src/app.ts:118-163) |
| `state_management.dfy` | `StateManagement` | `State.addListener`, `ProjectState` (src/util/state-management.ts) |
| `drag_drop.dfy` | `DragDrop` | the drag payload: `types`, `setData`, `getData`, `effectAllowed` |
| `project_item.dfy` | `ProjectItemComponent` | `persons`, `dragStartHandler` (src/app.ts:241-280) |
| `project_list.dfy` | `ProjectListComponent` | `ProjectList` (src/components/project-list.ts) |
| `project_input.dfy` | `ProjectInputComponent` | `ProjectInput` (src/components/project-input.ts) |
| `board.dfy` | `Board` | client methods that use the specifications above on the "Build API" example |

src/app.ts repeats the store (55-113), the list (285-368) and the form
(371-462) verbatim. Each of them is modelled once. src/util/validation.ts,
src/components/project-item.ts and src/models/drag-drop.ts are not part of this
model; the copies of `validate`, `ProjectItem` and the drag interfaces in
src/app.ts are modelled instead.

Listeners are modelled by identity. A `ListenerId` stands for the callback
given to `addListener`. Each call the store makes is recorded in the ghost log
`ProjectState.notifications` as `Notification(listener, snapshot)`. The body of
the list's callback is `ProjectList.OnProjectsChanged`.

The checks are strict:

- the description must be longer than 5 (`>`), so at least 6. Like
  JavaScript's `.length`, the model counts UTF-16 code units
  (`JsRuntime.Utf16Length`), so a character outside the Basic Multilingual
  Plane counts twice;
- the number of people must lie strictly between 3 and 25, so 4 to 24 are
  accepted.

A snapshot is a shallow copy (`slice()`). The `Project` objects in it are the
store's own. The model treats projects as values (see "Left out").

A successful drop does not clear the target list's droppable mark: only
`dragLeaveHandler` removes it (src/components/project-list.ts:48-60).
`Board.DropOnFinished` shows the finished list still marked after the drop.

## Model

| member | source | states |
|---|---|---|
| `JsRuntime.TrimEmptyIffBlank` | src/app.ts:133-135 | about `Trim`: `trim()` leaves an empty string exactly when the input is only whitespace |
| `JsRuntime.TrimEdges` | src/app.ts:134 | about `Trim`: a non-empty result of `trim()` neither starts nor ends with whitespace |
| `JsRuntime.Utf16Length` | src/app.ts:141 | `.length` counts UTF-16 code units: at least the number of characters and at most twice it |
| `JsRuntime.Utf16LengthAppend` | src/app.ts:141 | about `Utf16Length`: `.length` of a concatenation is the sum of the parts' lengths |
| `JsRuntime.Utf16LengthIsSize` | src/app.ts:141 | about `Utf16Length`: `.length` equals the number of characters exactly when no character lies outside the Basic Multilingual Plane |
| `JsRuntime.NumToString` | src/app.ts:134 | the string form of any number, NaN included, is never blank, so `required` never rejects a number |
| `JsRuntime.ToNumberOfString` | src/components/project-input.ts:50 | about `ToNumber` and `IntToString`: unary `+` reads the string form of every integer back as that integer |
| `Validation.Validate` | src/app.ts:131-163 | the result is the conjunction of the applicable checks. `required` rejects exactly the all-whitespace strings and never a number. minLength/maxLength are strict, apply only to strings and compare the untrimmed `.length` in UTF-16 code units. min/max are strict, apply only to numbers and reject NaN |
| `Validation.UnconstrainedIsValid` | src/app.ts:131-132 | about `Validate`: a `Validatable` with no constraint field set passes |
| `Validation.RequiredNumberPasses` | src/app.ts:133-135 | about `Validate`: `required` alone passes for every number |
| `StateManagement.Broadcast` | src/util/state-management.ts:59-61 | one listener pass makes exactly one call per registered listener, in registration order, each with the whole list |
| `StateManagement.FindIndex` | src/util/state-management.ts:65 | `find` stops at the first project with the id, and finds nothing exactly when no project has it |
| `StateManagement.MoveChangesOnlyFirstMatch` | src/util/state-management.ts:64-71 | about `MoveResult` and `MoveChanges`: moving keeps the length, the order and every field except `status`. Only the first project with the id can change, and it gets the new status. The list changes exactly when the store notifies |
| `StateManagement.MoveWithUniqueIds` | src/app.ts:99-106 | about `MoveResult` and `MoveChanges`: with unique ids, moving sets the status of the one project with that id. An absent id or an unchanged status leaves the list as it was. Ids stay unique |
| `StateManagement.ProjectState.constructor` | src/util/state-management.ts:23-29 | a new store has no projects, no listeners and has made no calls |
| `StateManagement.ProjectState.AddListener` | src/util/state-management.ts:13-15 | the listener is appended last; projects and calls are outside the frame |
| `StateManagement.ProjectState.AddProject` | src/util/state-management.ts:46-62 | the list becomes the old list plus one Active project with exactly the given id, title, description and people. Ids stay unique. Every listener is called once, in order, with the new list |
| `StateManagement.ProjectState.MoveProject` | src/util/state-management.ts:64-71 | the list becomes `MoveResult`. Listeners are called once each with the new list if something changed, and not at all otherwise |
| `StateManagement.ProjectState.UpdateListeners` | src/util/state-management.ts:73-77 | the call log grows by one call per listener, in order, with the current list |
| `StateManagement.InstanceSlot.GetInstance` | src/util/state-management.ts:35-41 | the first call creates an empty store, and every later call returns that same store |
| `DragDrop.GetDataAfterSetData` | src/components/project-list.ts:49 | about `SetData` and `GetData`: `getData` returns what `setData` stored under the same format, and other formats are unaffected |
| `ProjectItemComponent.PersonsLabel` | src/app.ts:247-250 | about `Persons`: the text starts with the string form of the count, which reads back as the number of people, followed by " person" exactly for one and " persons" otherwise |
| `ProjectItemComponent.DragStartCarriesId` | src/app.ts:260-264 | about `DragStart`, `GetData` and `Types`: after drag start, the payload's plain text is the project id and the effect is "move". On an empty payload, plain text is the first format |
| `ProjectListComponent.RelevantMembers` | src/components/project-list.ts:72-77 | about `Relevant`: a list shows exactly the snapshot's projects whose status is the one a drop onto that list sets |
| `ProjectListComponent.RelevantAppend` | src/components/project-list.ts:72-79 | about `Relevant`: the filter keeps snapshot order: filtering a concatenation concatenates the filtered parts |
| `ProjectListComponent.ListsPartition` | src/components/project-list.ts:72-77 | about `Relevant`: the active and finished lists together hold every project of a snapshot as often as the snapshot does, and share none |
| `ProjectListComponent.DropMovesBetweenLists` | src/components/project-list.ts:48-54 | about `MoveResult` and `Relevant`: dropping a stored project onto a list puts it in that list and takes it out of the other. The sizes change by one exactly when it came from the other list |
| `ProjectListComponent.ProjectList.constructor` | src/components/project-list.ts:17-23 | a list starts with no assigned projects, not droppable, and appends its listener to the store |
| `ProjectListComponent.ProjectList.OnProjectsChanged` | src/components/project-list.ts:70-81 | after a notification, `assignedProjects` is the snapshot filtered by the list's status |
| `ProjectListComponent.ProjectList.DragOverHandler` | src/components/project-list.ts:39-45 | the drag is accepted, and the list marked droppable, exactly when the payload exists and its first format is "text/plain" |
| `ProjectListComponent.ProjectList.DropHandler` | src/components/project-list.ts:48-54 | the store moves the payload's plain-text id to the list's status: Active for "active", Finished for "finished" |
| `ProjectListComponent.ProjectList.DragLeaveHandler` | src/components/project-list.ts:57-60 | the droppable mark is cleared. Nothing else, the store included, is in the frame |
| `ProjectInputComponent.FieldRules` | src/components/project-input.ts:39-54 | about `Validate` on the three `Validatable`s: the title passes if and only if it is not blank. The description passes if and only if it is not blank and its `.length` in UTF-16 code units is more than 5. People passes if and only if it reads as a number strictly between 3 and 25 |
| `ProjectInputComponent.DescriptionBoundaries` | src/components/project-input.ts:43-47 | about `DescriptionAccepted`: "test" and "tests" are rejected and "tests!" is accepted |
| `ProjectInputComponent.AstralDescription` | src/components/project-input.ts:43-47 | about `DescriptionAccepted`: "API " followed by U+1F680 has five characters but `.length` 6, so it is accepted |
| `ProjectInputComponent.PeopleOf` | src/components/project-input.ts:49-54 | about `PeopleAccepted`: a people field holding the string form of n passes if and only if 3 < n < 25 |
| `ProjectInputComponent.BlankPeopleRejected` | src/components/project-input.ts:50-52 | about `ToNumber` and `PeopleAccepted`: an empty or blank people field reads as 0 and is rejected |
| `ProjectInputComponent.ProjectInput.GenerateUserInput` | src/components/project-input.ts:33-67 | returns the entered title, description and numeric people if and only if all three fields pass; returns nothing otherwise |
| `ProjectInputComponent.ProjectInput.ClearInputs` | src/components/project-input.ts:70-74 | all three fields become empty |
| `ProjectInputComponent.ProjectInput.SubmitHandler` | src/components/project-input.ts:78-89 | on a passing form: exactly one `addProject` with the entered values, then all fields empty. On a failing form: store, call log and fields all unchanged |

## Left out

- Rendering: `Component` (src/components/component.ts), `renderContent`, `renderProjects` and its loop, the `ProjectItem` constructor and its DOM writes. None of these affects the state the model tracks.
- `alert` on a failed submit, `console.log` in `dragEndHandler`, `event.preventDefault()` in the submit handler, and the `Autobind` decorator. None of these has an effect on the model's state. For a drag-over, `preventDefault` is the `accepted` result.
- The bootstrapping in src/index.ts and src/app.ts:465-469. `Board` plays that role for the "Build API" example.
- Listener callbacks as closures. The store records each call in a ghost log and does not run the list's code. Whoever drives the model delivers a snapshot to `ProjectList.OnProjectsChanged`, as `Board` does.
- Aliasing: `slice()` copies the array but not the `Project` objects, so a snapshot shares its projects with the store. The model treats projects as values. A later status change is therefore not visible through an earlier snapshot, and a listener cannot write into the store through a snapshot.
- `Math.random().toString()` ids. `AddProject` and `SubmitHandler` take the id as a parameter and require that no stored project has it. The source does not guarantee this.
- JsRuntime.ToNumber: unary `+` is modelled only for blank strings (0) and optionally signed decimal integers. Fractions such as "4.5", exponents ("1e1"), hexadecimal/octal/binary literals and "Infinity" give NaN in the model, so the model rejects people values like "4.5" that the source accepts.
- Numbers are integers or NaN throughout, and the Validatable bounds are integers. Floating-point values are not modelled.
- The drag payload models only an ordered list of (format, data) items and `effectAllowed`. Format names are not lower-cased and the "text" alias is not modelled. A `drop` event without a `dataTransfer` (which throws at `!`) is not modelled.
- `dragEndHandler` only logs, and `ProjectItem.configure` only registers handlers. Neither is modelled.
- The static `instance` field is an `InstanceSlot` object. Its `GetInstance` is the model of `getInstance`, and components receive the store as a parameter.

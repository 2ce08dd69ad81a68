/** The parts of `ProjectItem` (src/app.ts:241-280) that are not DOM writes:
    the `persons` text and the drag-start handler that puts the project's
    id into the drag payload. */
module ProjectItemComponent {
  import opened JsRuntime
  import opened ProjectModel
  import opened DragDrop

  /** The `persons` getter for a project with `people` members. */
  function Persons(people: int): string {
    if people == 1 then "1 person" else IntToString(people) + " persons"
  }

  /** The text starts with the string form of the count, which reads back as
      `people`, followed by " person" for exactly one member and " persons"
      otherwise. */
  lemma PersonsLabel(people: int)
    ensures var text := Persons(people);
      var count := |IntToString(people)|;
      && count < |text|
      && text[..count] == IntToString(people)
      && ToNumber(text[..count]) == Finite(people)
      && text[count..] == if people == 1 then " person" else " persons"
  {
    ToNumberOfString(people);
    var text := Persons(people);
    var count := |IntToString(people)|;
    if people == 1 {
      assert IntToString(1) == "1";
      assert text[..count] == "1";
    } else {
      assert text[..count] == IntToString(people);
    }
  }

  /** `dragStartHandler`: the project's id is set as plain text and the
      allowed effect becomes "move". */
  function DragStart(transfer: DataTransfer, project: Project): DataTransfer {
    SetData(transfer, PlainText, project.id).(effectAllowed := "move")
  }

  /** After drag start the payload's plain text is the project's id and the
      effect is "move"; on a payload that started empty, plain text is the
      only and so the first format. */
  lemma DragStartCarriesId(transfer: DataTransfer, project: Project)
    ensures GetData(DragStart(transfer, project), PlainText) == project.id
    ensures DragStart(transfer, project).effectAllowed == "move"
    ensures transfer.items == [] ==> Types(DragStart(transfer, project)) == [PlainText]
  {
    GetDataAfterSetData(transfer, PlainText, project.id, PlainText);
  }
}

/** `ProjectInput` (src/components/project-input.ts, duplicated in
    src/app.ts:371-462): the form that validates its three fields and, when
    they pass, adds a project to the store and clears itself. */
module ProjectInputComponent {
  import opened Wrappers
  import opened JsRuntime
  import opened Validation
  import opened ProjectModel
  import opened StateManagement

  /** The `[title, description, people]` tuple `generateUserInput` returns. */
  datatype UserInput = UserInput(title: string, description: string, people: int)

  /** `titleValidatable`: required. */
  function TitleValidatable(title: string): Validatable {
    Validatable(Str(title), true, None, None, None, None)
  }

  /** `desacriptionValidatable`: required, minLength 5. */
  function DescriptionValidatable(description: string): Validatable {
    Validatable(Str(description), true, Some(5), None, None, None)
  }

  /** `peopleValidatable`: the number `+people`, required, min 3, max 25. */
  function PeopleValidatable(people: string): Validatable {
    Validatable(Number(ToNumber(people)), true, None, None, Some(3), Some(25))
  }

  predicate TitleAccepted(title: string) {
    !IsBlank(title)
  }

  predicate DescriptionAccepted(description: string) {
    !IsBlank(description) && Utf16Length(description) > 5
  }

  predicate PeopleAccepted(people: string) {
    var n := ToNumber(people);
    n.Finite? && 3 < n.value < 25
  }

  predicate FormAccepted(title: string, description: string, people: string) {
    TitleAccepted(title) && DescriptionAccepted(description) && PeopleAccepted(people)
  }

  /** What each field's rules amount to: the title must not be blank; the
      description must not be blank and must be longer than 5 UTF-16 code
      units; the people field must read as a number strictly between 3 and
      25. */
  lemma FieldRules(title: string, description: string, people: string)
    ensures Validate(TitleValidatable(title)) <==> TitleAccepted(title)
    ensures Validate(DescriptionValidatable(description)) <==> DescriptionAccepted(description)
    ensures Validate(PeopleValidatable(people)) <==> PeopleAccepted(people)
  {
  }

  /** "test" and the 5-character "tests" are too short a description;
      "tests!" is long enough. */
  lemma DescriptionBoundaries()
    ensures !DescriptionAccepted("test") && !DescriptionAccepted("tests") && DescriptionAccepted("tests!")
  {
    assert "tests!"[0] == 't';
    Utf16LengthIsSize("tests");
  }

  /** `.length` counts an astral character such as U+1F680 twice, so a
      description of five characters one of which is astral is long enough. */
  lemma AstralDescription()
    ensures |"API \U{1F680}"| == 5 && DescriptionAccepted("API \U{1F680}")
  {
    var d := "API \U{1F680}";
    assert d[0] == 'A';
    assert d == "API " + ['\U{1F680}'];
    Utf16LengthAppend("API ", ['\U{1F680}']);
    Utf16LengthIsSize("API ");
    assert Utf16Length(['\U{1F680}']) == 2;
  }

  /** A people field holding the string form of `n` is accepted exactly when
      3 < n < 25, so 3 and 25 are rejected and 4 and 24 accepted. */
  lemma PeopleOf(n: int)
    ensures PeopleAccepted(IntToString(n)) <==> 3 < n < 25
  {
    ToNumberOfString(n);
  }

  /** An empty or blank people field reads as 0 people and is rejected. */
  lemma BlankPeopleRejected(people: string)
    requires IsBlank(people)
    ensures ToNumber(people) == Finite(0) && !PeopleAccepted(people)
  {
    TrimEmptyIffBlank(people);
  }

  class ProjectInput {
    /** The `value`s of the title, description and people input elements. */
    var titleValue: string
    var descriptionValue: string
    var peopleValue: string

    /** The form with whatever its input elements hold when it is built. */
    constructor (title: string, description: string, people: string)
      ensures titleValue == title && descriptionValue == description && peopleValue == people
    {
      titleValue, descriptionValue, peopleValue := title, description, people;
    }

    /** `generateUserInput()`: the entered values, with people as a number,
        when all three fields pass their rules; nothing otherwise. */
    method GenerateUserInput() returns (input: Option<UserInput>)
      ensures input.Some? <==> FormAccepted(titleValue, descriptionValue, peopleValue)
      ensures input.Some? ==> input.value == UserInput(titleValue, descriptionValue, ToNumber(peopleValue).value)
    {
      var enteredTitle := titleValue;
      var enteredDescription := descriptionValue;
      var enteredPeople := peopleValue;
      FieldRules(enteredTitle, enteredDescription, enteredPeople);
      if
        || !Validate(TitleValidatable(enteredTitle))
        || !Validate(DescriptionValidatable(enteredDescription))
        || !Validate(PeopleValidatable(enteredPeople))
      {
        input := None;
      } else {
        input := Some(UserInput(enteredTitle, enteredDescription, ToNumber(enteredPeople).value));
      }
    }

    /** `clearInputs()`: all three fields become empty. */
    method ClearInputs()
      modifies this
      ensures titleValue == "" && descriptionValue == "" && peopleValue == ""
    {
      titleValue := "";
      descriptionValue := "";
      peopleValue := "";
    }

    /** `submitHandler`: when the form passes, one `addProject` with the
        entered values (under the fresh id `id`) and then the fields are
        cleared; when it fails, neither the store nor the fields change. */
    method SubmitHandler(state: ProjectState, id: string)
      requires state.Valid() && !HasId(state.projects, id)
      modifies this, state`projects, state`notifications
      ensures state.Valid()
      ensures FormAccepted(old(titleValue), old(descriptionValue), old(peopleValue)) ==>
        && state.projects == old(state.projects) +
             [Project(id, old(titleValue), old(descriptionValue), ToNumber(old(peopleValue)).value, Active)]
        && state.notifications == old(state.notifications) + Broadcast(state.listeners, state.projects)
        && titleValue == "" && descriptionValue == "" && peopleValue == ""
      ensures !FormAccepted(old(titleValue), old(descriptionValue), old(peopleValue)) ==>
        && state.projects == old(state.projects)
        && state.notifications == old(state.notifications)
        && titleValue == old(titleValue) && descriptionValue == old(descriptionValue) && peopleValue == old(peopleValue)
    {
      var userInput := GenerateUserInput();
      if userInput.Some? {
        var UserInput(title, description, people) := userInput.value;
        state.AddProject(id, title, description, people);
        ClearInputs();
      }
    }
  }
}

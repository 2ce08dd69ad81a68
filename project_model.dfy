/** The project record shared by the store, the form and the two lists
    (src/models/project-model.ts). */
module ProjectModel {

  /** The two values of the ProjectStatus enum; there is no third state. */
  datatype ProjectStatus = Active | Finished

  /** One project. Only the store's move operation changes a field of a stored
      project, and it changes only `status`. */
  datatype Project = Project(
    id: string,
    title: string,
    description: string,
    people: int,
    status: ProjectStatus)

  /** Some project in `projects` carries `id`. */
  predicate HasId(projects: seq<Project>, id: string) {
    exists k :: 0 <= k < |projects| && projects[k].id == id
  }

  /** No two projects share an id: the store's invariant, given that every new
      project gets a fresh id. */
  predicate UniqueIds(projects: seq<Project>) {
    forall j, k :: 0 <= j < k < |projects| ==> projects[j].id != projects[k].id
  }
}

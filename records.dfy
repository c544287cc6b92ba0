/**
 * The plain records the quoting tool passes around: costs, subtasks, tasks, projects and the
 * user's details. The lists a record carries (`subtasks`, `otherCosts`) are always present:
 * every caller supplies them, so a missing list is not modelled.
 */
module Records {
  import opened Wrappers
  import opened JsNumbers

  datatype Category = Materials | Software | Hardware | Services | Travel | Other

  /** An ad-hoc cost; `id` is the clock reading taken when it was added. */
  datatype Cost = Cost(id: int, name: string, category: Category, amount: Field)

  datatype Subtask = Subtask(name: string, hoursEstimate: Field, otherCosts: seq<Cost>)

  datatype Task = Task(name: string, hoursEstimate: Field, subtasks: seq<Subtask>, otherCosts: seq<Cost>)

  /**
   * A project as the project form holds it and as it is stored. `id` is None until the record
   * is first saved (a spread of a record without the key leaves the key alone); `createdAt`
   * and `updatedAt` are "" when absent (both are falsy); `quoteNumber` is None for `null`.
   */
  datatype Project = Project(
    id: Option<int>,
    name: string,
    customerName: string,
    hourlyRate: Field,
    hoursEstimate: Field,
    tasks: seq<Task>,
    otherCosts: seq<Cost>,
    totalCost: real,
    quoteNumber: Option<string>,
    createdAt: string,
    updatedAt: string)

  /** The single user-profile record. */
  datatype UserDetails = UserDetails(companyName: string, name: string, phoneNumber: string, email: string, terms: string)
}

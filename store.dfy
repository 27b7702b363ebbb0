/** The persistent records the service reads and writes, and the database that holds them.
    The database is a set of tables from record id to record; every write replaces tables. */
module Store {
  import opened Wrappers

  /** The integers a JavaScript number holds exactly (`Number.MIN_SAFE_INTEGER` to `Number.MAX_SAFE_INTEGER`). */
  type SafeInt = n: int | -0x1F_FFFF_FFFF_FFFF <= n <= 0x1F_FFFF_FFFF_FFFF

  /** A spreadsheet cell value: text, a whole number, or empty (`null`). */
  datatype Cell = Str(s: string) | Num(n: SafeInt) | Null

  /** An employee row; `salary` and `availableDate` hold the imported cell values as they were read. */
  datatype Employee = Employee(id: string, name: string, salary: Cell, availableDate: Cell)

  /** A PM or Developer row. `projectId` stands for the role's fields that the import never writes. */
  datatype RoleRecord = RoleRecord(id: string, features: seq<string>, employeeId: string, projectId: Option<string>)

  /** An under-selection developer row; only its id matters to the operations modelled. */
  datatype SelectionRecord = SelectionRecord(id: string, employeeId: string)

  datatype Client = Client(id: string, name: string)

  /** The project states; a new project starts in `Open`. */
  datatype State = Open | TeamAssigned | SentToClient | RejectedByClient | Accepted | Cancelled

  /** A project row; dates are opaque integers. */
  datatype Project = Project(
    id: string, name: string, industry: string, studio: string, features: seq<string>,
    clientId: string, devAmount: int, maxBudget: int, endDate: int,
    state: State, pmId: Option<string>)

  datatype Tables = Tables(
    employees: map<string, Employee>,
    pms: map<string, RoleRecord>,
    devs: map<string, RoleRecord>,
    underSelection: map<string, SelectionRecord>,
    projects: map<string, Project>,
    clients: map<string, Client>)

  /** The database. */
  class Db {
    var tables: Tables

    constructor (initial: Tables)
      ensures tables == initial
    {
      tables := initial;
    }
  }
}

# Staffing back end: spreadsheet import and project commands

This project models part of a NestJS staffing service for a software studio in Dafny. The studio
keeps its employees, project managers (PMs), developers and developers under selection in a
database, and it turns client projects into teams. The model covers two core parts:

- **The spreadsheet import** (`ExcelParser`). It finds the PM, developer and under-selection
  sheets of an uploaded workbook by name. It maps each sheet's header row to column slots through
  a case-ordered alias table. It then walks the data rows in order: it upserts one employee per
  row, and on the PM and developer sheets it upserts a role record whose features are the
  comma-separated, trimmed feature cell. A row that raises stops its sheet and the whole import.
  A role write is not awaited; the model treats a failing one as stopping nothing (its
  unhandled rejection, which can end a Node process, is outside the model).
- **The project commands** (`ProjectService`). `createProject` and `updateProject` stamp the end
  date with the current time and turn the form's `{ value, label }` client into a connect or a
  create. `cancelProject` writes the loaded project back as cancelled. `assignTeam` runs the PM
  lookup and the developer and under-selection id checks, in that order, and then updates the
  project.

The database is a `Db` object holding one value of `Tables` (`store.dfy`). The state-changing
operations are methods of the `ExcelParser` and `ProjectService` classes with `modifies db`. Each
one is proved equal to a specification function on the old tables (`ImportSheet`, `ImportKinds`)
or is given its whole new state in its `ensures`. The properties are proved about those functions:
the header mapping, the writes of a sheet, idempotence of a re-import, the frame of an import, and
the meaning of the id-count checks.

Modules: `Wrappers` (Option, Result), `Strings` (JavaScript `toLowerCase`, `trim`, `split`,
number formatting), `Store` (records and tables), `Sheets` (worksheets, sheet lookup, header
mapping), `ExcelParser`, `ProjectService`.

JavaScript semantics written out in the model:
- Reading a property of `undefined` or `null` raises a `TypeError`. This is the source of the
  missing-column and null-cell row errors, of the missing-sheet error, and of the missing-project
  errors of cancelProject and assignTeam. Calling `split` on a number raises the not-text row error,
  and updateProject's missing project is the store's record-not-found error.
- `value + ' '` writes `null` as `"null"`.
- Column numbers are 1-based, so they are always truthy.
- `eachCell` skips empty header cells.
- An object spread copies the spread object's own `undefined` keys.
- An `undefined` filter matches any record, and an `in` filter returns each matching record once.

## Model

| member | source | states |
|---|---|---|
| Strings.Trim | src/project/excel.parser.ts:150 | the result is a slice of the input with only white space removed at either end, begins and ends with a non-space, and adds no character |
| Strings.Split | src/project/excel.parser.ts:149 | splitting on `,` yields one piece more than there are commas, and no piece holds a comma |
| Strings.SplitJoin | src/project/excel.parser.ts:149 | joining the pieces with `,` gives back the cell text, so splitting loses nothing |
| Strings.NatToStringRoundTrip | src/project/excel.parser.ts:69 | the decimal text of a non-negative number reads back as that number |
| Strings.IntToStringInjective | src/project/excel.parser.ts:69 | two integers with the same text, sign included, are equal, so distinct numeric id cells give distinct employee keys |
| Sheets.FilterWorkbook | src/project/excel.parser.ts:41-46 | no sheet is found exactly when no lower-cased sheet name is in the list; otherwise the result is the first sheet whose lower-cased name is in the list |
| Sheets.FirstCase | src/project/excel.parser.ts:117-141 | the `switch (true)` picks the slot of the first case whose aliases contain the header, and none exactly when no case does |
| Sheets.Classify | src/project/excel.parser.ts:117-141 | the header switch in source order; it never selects the `name` slot, because every `name` alias is a first-name alias tested earlier |
| Sheets.Headers.Set | src/project/excel.parser.ts:119-137 | `{ ...headers, slot: col }` sets that slot to the column and leaves every other slot as it was |
| Sheets.Step | src/project/excel.parser.ts:116-141 | one header cell: a cell that matches no alias (or is empty) leaves the record unchanged, a matching one sets only its slot |
| Sheets.LastColumn | src/project/excel.parser.ts:116-143 | a slot ends up with the right-most column whose header selects it, and stays `undefined` exactly when none does |
| Sheets.HeadersOf | src/project/excel.parser.ts:107-143 | the header record built from a header row never sets `name`, and every column it holds is a column of that row |
| Sheets.HeadersOfSlots | src/project/excel.parser.ts:107-143 | the header record built left to right holds, for each slot, the right-most matching column |
| ExcelParser.FullNameWithoutName | src/project/excel.parser.ts:62-67 | with no `name` column (as on every sheet), the full name exists exactly when there is a first-name column; it is "first last" (null written as "null") when both columns exist, and the first-name cell alone otherwise |
| ExcelParser.FullName | src/project/excel.parser.ts:62-67 | the full name exists exactly when there is a first-name or a name column, and otherwise fails on the first-name cell; it is "first last" when both of those columns exist, else the name cell when there is a name column, else the first-name cell |
| ExcelParser.EmployeeOfRow | src/project/excel.parser.ts:69-75 | a built employee is keyed by the text of the row's id cell |
| ExcelParser.EmployeeOfRowSpec | src/project/excel.parser.ts:53-73 | a row builds an employee exactly when it has a full name that is not null, an id column with a non-null id, and salary and date columns; the fields are the id text, the name text and the raw salary and date cells |
| ExcelParser.EmployeeOfRowErrors | src/project/excel.parser.ts:62-73 | the error a row raises is the first in statement order: the full-name error, then the missing id column, the null id, the null name, the missing salary column and the missing date column |
| ExcelParser.FeatureList | src/project/excel.parser.ts:147-150 | the feature list has one entry more than the cell has commas; no entry holds a comma or begins or ends with white space |
| ExcelParser.RoleOfRow | src/project/excel.parser.ts:146-166 | a role write exists exactly when there is a features column whose cell holds text; it is keyed by the employee id, creates and updates with that id and links the employee, and carries the feature list of the cell |
| ExcelParser.UpsertRole | src/project/excel.parser.ts:168-172 | the upsert adds only its key and leaves every other record alone; the record under the key has the employee id and the new features, and an update keeps an existing project link |
| ExcelParser.ImportRowsStep | src/project/excel.parser.ts:52-80 | an unfolding lemma of the row loop's definition at row `i`, used by the loop's proof: a row that raises ends the sheet with the database as it was before the row; otherwise the row's writes are applied and the next row follows |
| ExcelParser.Writes | src/project/excel.parser.ts:52-80 | the employees a sheet writes are those of its leading rows that build, in row order; the sheet fails exactly when a row raises, and the failure is that row's error |
| ExcelParser.WritesRoles | src/project/excel.parser.ts:152-171 | every role write of a sheet is keyed, created and updated under its own employee id |
| ExcelParser.ImportRowsIsWrites | src/project/excel.parser.ts:52-80 | the row loop applies the sheet's writes to any database: what is written does not depend on what the database already holds |
| ExcelParser.ImportSheet | src/project/excel.parser.ts:48-81 | a sheet imports without failure exactly when every data row builds an employee; a failure is the error of a row all of whose predecessors build |
| ExcelParser.OverwrittenEmployee | src/project/excel.parser.ts:74-78 | an employee upsert that a later upsert of the same id follows leaves no trace |
| ExcelParser.EmployeesAbsorb | src/project/excel.parser.ts:74-78 | a run of employee upserts is absorbed by a later run that covers all its ids |
| ExcelParser.UpsertRoleTwice | src/project/excel.parser.ts:168-172 | a role upsert followed by a well-formed upsert of the same key equals the second upsert alone |
| ExcelParser.UpsertRoleCommute | src/project/excel.parser.ts:168-172 | role upserts of different keys commute |
| ExcelParser.OverwrittenRole | src/project/excel.parser.ts:168-172 | a role upsert whose key a later run of well-formed upserts writes again leaves no trace |
| ExcelParser.RolesAbsorb | src/project/excel.parser.ts:197-201 | a run of role upserts is absorbed by a later well-formed run covering its keys |
| ExcelParser.ImportSheetIdempotent | src/project/excel.parser.ts:48-81 | importing the same sheet twice gives the same database and the same outcome as importing it once |
| ExcelParser.LastEmployeeWins | src/project/excel.parser.ts:74-78 | with repeated ids, the last row with a given id is the one stored |
| ExcelParser.UntouchedEmployee | src/project/excel.parser.ts:74-78 | an id no row carries keeps its stored employee, or stays absent |
| ExcelParser.ImportSheetFrame | src/project/excel.parser.ts:48-81 | a sheet never writes projects or clients, and leaves every role table other than its own alone; for the selection sheet the under-selection table is not covered, since its role step is not modelled |
| ExcelParser.ImportKinds | src/project/excel.parser.ts:9-39 | an import without failure found every sheet it was asked for; a failure names one of those sheets, and a missing-sheet failure names a sheet the workbook lacks |
| ExcelParser.ImportKindsHead | src/project/excel.parser.ts:9-39 | an unfolding lemma of the workbook import's definition for its first sheet, used by the stage proof: a missing sheet stops the import with the database unchanged by it; a row error stops it after that sheet's earlier rows; otherwise the next sheet follows |
| ExcelParser.ImportKindsFrame | src/project/excel.parser.ts:9-39 | the import never touches projects or clients, and touches the PM, developer or under-selection table only when the sheet of that role is imported |
| ExcelParser.ExcelParser.ParseHeaders | src/project/excel.parser.ts:83-144 | the loop over the header row yields, for every slot, the right-most matching column, and never a `name` column |
| ExcelParser.ExcelParser.ParsePM | src/project/excel.parser.ts:146-173 | the PM table becomes the row's role step applied to it; nothing else changes |
| ExcelParser.ExcelParser.ParseDev | src/project/excel.parser.ts:175-202 | the developer table becomes the row's role step applied to it; nothing else changes |
| ExcelParser.ExcelParser.ParseEmployee | src/project/excel.parser.ts:48-81 | the row loop leaves the database and the outcome that the sheet import specifies |
| ExcelParser.ExcelParser.ImportStage | src/project/excel.parser.ts:12-38 | one sheet of the import: the database and outcome are those of the workbook import's first step, and the import continues exactly when that step neither misses the sheet nor fails a row |
| ExcelParser.ExcelParser.ParseExcel | src/project/excel.parser.ts:9-39 | the PM, developer and under-selection sheets are imported in that order, as the workbook import specifies, stopping at the first missing sheet or failing row |
| ProjectService.NormalizeClient | src/project/project.service.ts:26-36 | a non-empty `value` becomes a connect to that id; an empty one becomes a create named `label` |
| ProjectService.LinkClient | src/project/project.service.ts:38-40 | a connect succeeds exactly when the client exists and changes no client; a create adds exactly one client under the new id; the linked id is always a stored client |
| ProjectService.ClientResolution | src/project/project.service.ts:26-40 | with a `value` the project links to that existing client or fails; without one it links to a new client named `label`, and nothing else changes among the clients |
| ProjectService.FoundCount | src/project/project.service.ts:208-228 | the found count equals the requested count exactly when every id exists and no id repeats |
| ProjectService.SpreadAfter | src/project/project.service.ts:220 | `{ key: v, ...body }` is `body` itself when `body` already has the key, as the assignTeam body always has |
| ProjectService.ProjectService.CreateProject | src/project/project.service.ts:15-41 | fails exactly when a non-empty client id names no client; otherwise stores one new open project without a PM, with the given fields, the current time as end date and the resolved client |
| ProjectService.ProjectService.UpdateProject | src/project/project.service.ts:43-73 | succeeds exactly when the project exists and the client resolves; a missing project, then an unknown client id, fails with nothing written; otherwise the project takes the given fields, the current time as end date and the resolved client, and keeps its state and PM |
| ProjectService.ProjectService.CancelProject | src/project/project.service.ts:111-126 | a missing project fails with nothing written; otherwise only its state changes, to cancelled, and cancelling twice changes nothing |
| ProjectService.ProjectService.AssignTeam | src/project/project.service.ts:193-237 | errors come in the order PM not found, missing project (when no PM id is given), bad developer ids, bad under-selection ids, missing project on update, and none writes; success needs existing, distinct developer and under-selection ids and changes only the project's PM, to the given one or else the project's own |

## Left out

- The under-selection role step (`parseUnderSelectionDev`) is not modelled. Its `selectionEnd` is a cell object, guarded by `headers.features` rather than `headers.date`, and its write shape depends on the database schema, which is not part of this model. Under-selection rows write employees only.
- Reading the uploaded file (`workbook.xlsx.load`) is not modelled. A workbook is given as a sequence of worksheets, each with a header row and data rows (`top` and `bottom` from `dimensions`).
- Cell values are modelled as text, integer or null. Rich text, formulas, dates, floating-point numbers and booleans are left out. Numeric cells are integers within JavaScript's safe range (`Number.MAX_SAFE_INTEGER`, below 2^53): beyond it `toString` prints rounded digits or exponent form (`1e+21`), which the model does not capture.
- `toLowerCase` is modelled for ASCII and Latin-1 letters only. Other scripts are left unchanged.
- `Strings.Trim` removes the ECMAScript white-space and line-terminator set. Any other Unicode space separators are not included.
- The database is modelled as maps keyed by id. Its schema, type coercion and constraint errors are left out: salary and date cells are stored as raw cells, and no row error arises from their types.
- ImportSheetFrame: states the under-selection table unchanged only for the PM and developer sheets. The source's selection sheet upserts under-selection records, and that role step is not modelled.
- ImportKindsFrame: states the under-selection table unchanged only when the selection sheet is not imported, for the same reason.
- Each command is modelled as running alone, atomically. Concurrent requests are not modelled: cancelProject writes back every field it loaded, so a concurrent update could be reverted.
- `ExcelParser.ExcelParser.ParsePM`/`ParseDev` model the role upsert as synchronous. Because it is never awaited, a failure only skips that role write. Interleaving with later rows is left out, and so is the process-level handling of the unhandled rejection.
- `new Date()` becomes the `now` parameter. The ids the database generates become the `newId` and `newClientId` parameters, which must be fresh.
- The end date is an opaque integer.
- The pass-through queries (`projects`, `clients`, `pms`, `devs`, `underSelection`) add no logic and are not modelled.
- `parseExcel`/`exportExcel` of the service only delegate. The workbook export (`excel.writer.ts`), the controllers, modules and authentication guards are not part of this model.
- `ProjectService.ProjectService.AssignTeam`: `data.devs` and `data.underSelection` are always lists here, so the `TypeError` of a missing list is not modelled.
- `ProjectService.ProjectService.AssignTeam`: the project id is always a string here. An `undefined` `projectId`, whose lookup would match any project, is not modelled.
- `ProjectService.ProjectService.CreateProject` and `UpdateProject`: a body without a `client` field, which raises a `TypeError` when `client.value` is read, is not modelled. The client is always a `{ value, label }` pair here.
- `ProjectService.ProjectService.CancelProject`: the id is always a string here. An `undefined` id, which would match any project, is not modelled.
- A project is created in the open state, which is the state the system's design gives a new project.
- The system's description says more than the code does:
  - The code assigns only the PM, as the spread keeps the body's `undefined` developer and under-selection fields. It does not record past projects or creation dates.
  - Cancelling releases no staff.
  - The remaining life-cycle steps are not in the code: sending to the client, rejection, acceptance, delay and cost checks, and indicators.

  The model follows the code.

/** The staff spreadsheet import (excel.parser.ts): each data row of a staff sheet becomes an
    employee upsert and, on the PM and developer sheets, an upsert of the role record that wraps it. */
module ExcelParser {
  import opened Wrappers
  import opened Strings
  import opened Store
  import opened Sheets

  /** Why a row stops the import. `NoColumn`: a property read on an `undefined` header cell;
      `NullCell`: `toString` called on an empty cell; `NotText`: `split` called on a non-string value. */
  datatype RowError = NoColumn(slot: Slot) | NullCell(slot: Slot) | NotText(slot: Slot)

  /** `row.getCell(col).value`; a cell past the end of the row is empty. */
  function CellAt(row: seq<Cell>, col: Col): Cell
  {
    if col <= |row| then row[col - 1] else Null
  }

  /** `headers.s && row.getCell(headers.s)`: the cell when the slot has a column. */
  function Pick(h: Headers, row: seq<Cell>, s: Slot): Option<Cell>
  {
    match h.Get(s)
    case None => None
    case Some(col) => Some(CellAt(row, col))
  }

  /** The text `+` gives a cell value: `null` is written "null". */
  function Concat(c: Cell): string
  {
    match c
    case Str(s) => s
    case Num(n) => IntToString(n)
    case Null => "null"
  }

  /** The full-name value: first and last name joined by a space when both columns exist,
      otherwise the name column, otherwise the first-name column (which must then exist). */
  function FullName(h: Headers, row: seq<Cell>): (r: Result<Cell, RowError>)
    ensures r.Ok? <==> h.firstName.Some? || h.name.Some?
    ensures r.Err? ==> r.error == NoColumn(FirstName)
    ensures h.firstName.Some? && h.lastName.Some? ==>
      r == Ok(Str(Concat(CellAt(row, h.firstName.value)) + " " + Concat(CellAt(row, h.lastName.value))))
    ensures (h.firstName.None? || h.lastName.None?) && h.name.Some? ==> r == Ok(CellAt(row, h.name.value))
    ensures h.firstName.Some? && h.lastName.None? && h.name.None? ==> r == Ok(CellAt(row, h.firstName.value))
  {
    var first := Pick(h, row, FirstName);
    var last := Pick(h, row, LastName);
    var name := Pick(h, row, Name);
    if first.Some? && last.Some? then Ok(Str(Concat(first.value) + " " + Concat(last.value)))
    else if name.Some? then Ok(name.value)
    else if first.Some? then Ok(first.value)
    else Err(NoColumn(FirstName))
  }

  /** Without a name column, the full name is "first last" when there is a last-name column,
      the first-name cell when there is not, and an error without a first-name column. */
  lemma FullNameWithoutName(h: Headers, row: seq<Cell>)
    requires h.name == None
    ensures FullName(h, row).Ok? <==> h.firstName.Some?
    ensures h.firstName.Some? && h.lastName.Some? ==>
      FullName(h, row) == Ok(Str(Concat(CellAt(row, h.firstName.value)) + " " + Concat(CellAt(row, h.lastName.value))))
    ensures h.firstName.Some? && h.lastName.None? ==> FullName(h, row) == Ok(CellAt(row, h.firstName.value))
  {
  }

  /** The employee record built from one data row, or the error that row raises.
      A built record is keyed by the text of the row's id cell. */
  function EmployeeOfRow(h: Headers, row: seq<Cell>): (r: Result<Employee, RowError>)
    ensures r.Ok? ==> h.id.Some? && Show(CellAt(row, h.id.value)) == Some(r.value.id)
  {
    match FullName(h, row)
    case Err(e) => Err(e)
    case Ok(full) =>
      if h.id.None? then Err(NoColumn(Id))
      else
        match Show(CellAt(row, h.id.value))
        case None => Err(NullCell(Id))
        case Some(id) =>
          match Show(full)
          case None => Err(NullCell(Name))
          case Some(name) =>
            if h.salary.None? then Err(NoColumn(Salary))
            else if h.date.None? then Err(NoColumn(Date))
            else Ok(Employee(id, name, CellAt(row, h.salary.value), CellAt(row, h.date.value)))
  }

  /** A row builds an employee exactly when it has a full name that is not empty, a non-empty id
      cell, and salary and date columns; the record holds the id and the name as text and the
      salary and date cells as read. A row without a full name raises that error first. */
  lemma EmployeeOfRowSpec(h: Headers, row: seq<Cell>)
    ensures var r := EmployeeOfRow(h, row);
      && (r.Ok? <==>
           (FullName(h, row).Ok? && FullName(h, row).value != Null
            && h.id.Some? && CellAt(row, h.id.value) != Null && h.salary.Some? && h.date.Some?))
      && (r.Ok? ==>
           (Show(FullName(h, row).value) == Some(r.value.name)
            && r.value.salary == CellAt(row, h.salary.value)
            && r.value.availableDate == CellAt(row, h.date.value)))
  {
  }

  /** The errors of a row, in the order the statements raise them: the full-name expression, the id
      column and the id value read by `id.value.toString()`, the name value read by `fullName.toString()`,
      then the salary and date columns read when the record is assembled. */
  lemma EmployeeOfRowErrors(h: Headers, row: seq<Cell>)
    ensures FullName(h, row).Err? ==> EmployeeOfRow(h, row) == Err(FullName(h, row).error)
    ensures FullName(h, row).Ok? && h.id.None? ==> EmployeeOfRow(h, row) == Err(NoColumn(Id))
    ensures FullName(h, row).Ok? && h.id.Some? && CellAt(row, h.id.value) == Null
            ==> EmployeeOfRow(h, row) == Err(NullCell(Id))
    ensures FullName(h, row).Ok? && h.id.Some? && CellAt(row, h.id.value) != Null
            && FullName(h, row).value == Null
            ==> EmployeeOfRow(h, row) == Err(NullCell(Name))
    ensures FullName(h, row).Ok? && h.id.Some? && CellAt(row, h.id.value) != Null
            && FullName(h, row).value != Null && h.salary.None?
            ==> EmployeeOfRow(h, row) == Err(NoColumn(Salary))
    ensures FullName(h, row).Ok? && h.id.Some? && CellAt(row, h.id.value) != Null
            && FullName(h, row).value != Null && h.salary.Some? && h.date.None?
            ==> EmployeeOfRow(h, row) == Err(NoColumn(Date))
  {
  }

  /** The feature list of a role: the cell text split on commas, each piece trimmed. */
  function FeatureList(text: string): (r: seq<string>)
    ensures |r| == Count(text, ',') + 1
    ensures forall k :: 0 <= k < |r| ==>
      (',' !in r[k] && (r[k] == [] || (!IsSpace(r[k][0]) && !IsSpace(r[k][|r[k]| - 1]))))
  {
    var parts := Split(text, ',');
    seq(|parts|, k requires 0 <= k < |parts| => Trim(parts[k]))
  }

  /** `employee: { connect: { id } }`. */
  datatype Link = Connect(id: string)

  /** The create shape and the update shape of a role upsert, and its `where` key. */
  datatype RoleCreate = RoleCreate(id: string, features: seq<string>, employee: Link)
  datatype RoleUpdate = RoleUpdate(id: string, features: seq<string>, employeeId: string)
  datatype RoleUpsert = RoleUpsert(where: string, create: RoleCreate, update: RoleUpdate)

  /** Both shapes write the record keyed by `where`, carry the same features and link to the employee with that id. */
  predicate Consistent(w: RoleUpsert)
  {
    w.create.id == w.where && w.create.employee.id == w.where
    && w.update.id == w.where && w.update.employeeId == w.where
    && w.create.features == w.update.features
  }

  /** The PM or developer upsert for a row whose employee is `e` (parsePM, parseDev). */
  function RoleOfRow(h: Headers, row: seq<Cell>, e: Employee): (r: Result<RoleUpsert, RowError>)
    ensures r.Ok? <==> h.features.Some? && CellAt(row, h.features.value).Str?
    ensures r.Ok? ==>
      (Consistent(r.value) && r.value.where == e.id
       && r.value.create.features == FeatureList(CellAt(row, h.features.value).s))
  {
    match Pick(h, row, Features)
    case None => Err(NoColumn(Features))
    case Some(Null) => Err(NullCell(Features))
    case Some(Num(_)) => Err(NotText(Features))
    case Some(Str(text)) =>
      var features := FeatureList(text);
      Ok(RoleUpsert(e.id, RoleCreate(e.id, features, Connect(e.id)), RoleUpdate(e.id, features, e.id)))
  }

  /** A role upsert: the update shape on an existing record (its other fields kept), else the create shape. */
  function UpsertRole(s: map<string, RoleRecord>, w: RoleUpsert): (r: map<string, RoleRecord>)
    ensures r.Keys == s.Keys + {w.where}
    ensures forall k :: k in s && k != w.where ==> r[k] == s[k]
    ensures Consistent(w) ==>
      r[w.where] == RoleRecord(w.where, w.create.features, w.where,
                               if w.where in s then s[w.where].projectId else None)
  {
    if w.where in s then
      s[w.where := s[w.where].(id := w.update.id, features := w.update.features, employeeId := w.update.employeeId)]
    else
      s[w.where := RoleRecord(w.create.id, w.create.features, w.create.employee.id, None)]
  }

  /** The role step of a row: a rejected role write is not awaited, so it changes nothing and does not stop the import. */
  function RoleStep(s: map<string, RoleRecord>, h: Headers, row: seq<Cell>, e: Employee): map<string, RoleRecord>
  {
    match RoleOfRow(h, row, e)
    case Ok(w) => UpsertRole(s, w)
    case Err(_) => s
  }

  /** The sheet being imported, and so which role table its rows also write. The role step of the
      under-selection sheet is not part of this model: its rows write employees only. */
  datatype RoleKind = PmRole | DevRole | SelectionRole

  /** All the writes one row makes once its employee is built. */
  function AfterRow(t: Tables, h: Headers, row: seq<Cell>, e: Employee, kind: RoleKind): Tables
  {
    var t1 := t.(employees := t.employees[e.id := e]);
    match kind
    case PmRole => t1.(pms := RoleStep(t1.pms, h, row, e))
    case DevRole => t1.(devs := RoleStep(t1.devs, h, row, e))
    case SelectionRole => t1
  }

  datatype SheetResult = SheetResult(tables: Tables, failure: Option<RowError>)

  /** The row loop: rows in order, each written before the next is read, up to the first row that raises. */
  function ImportRows(t: Tables, h: Headers, rows: seq<seq<Cell>>, kind: RoleKind): SheetResult
    decreases |rows|
  {
    if |rows| == 0 then SheetResult(t, None)
    else
      match EmployeeOfRow(h, rows[0])
      case Err(e) => SheetResult(t, Some(e))
      case Ok(emp) => ImportRows(AfterRow(t, h, rows[0], emp, kind), h, rows[1..], kind)
  }

  /** One turn of the row loop. */
  lemma ImportRowsStep(t: Tables, h: Headers, rows: seq<seq<Cell>>, i: nat, kind: RoleKind)
    requires i < |rows|
    ensures EmployeeOfRow(h, rows[i]).Err? ==>
      ImportRows(t, h, rows[i..], kind) == SheetResult(t, Some(EmployeeOfRow(h, rows[i]).error))
    ensures EmployeeOfRow(h, rows[i]).Ok? ==>
      ImportRows(t, h, rows[i..], kind)
      == ImportRows(AfterRow(t, h, rows[i], EmployeeOfRow(h, rows[i]).value, kind), h, rows[i + 1..], kind)
  {
    assert rows[i..][0] == rows[i] && rows[i..][1..] == rows[i + 1..];
  }

  /** parseEmployee on one worksheet. */
  function ImportSheet(t: Tables, ws: Worksheet, kind: RoleKind): (r: SheetResult)
    ensures r.failure.None? <==> forall k :: 0 <= k < |ws.rows| ==> EmployeeOfRow(HeadersOf(ws.header), ws.rows[k]).Ok?
    ensures r.failure.Some? ==> exists k ::
      (0 <= k < |ws.rows| && EmployeeOfRow(HeadersOf(ws.header), ws.rows[k]) == Err(r.failure.value)
       && forall j :: 0 <= j < k ==> EmployeeOfRow(HeadersOf(ws.header), ws.rows[j]).Ok?)
  {
    ImportRowsIsWrites(t, HeadersOf(ws.header), ws.rows, kind);
    ImportRows(t, HeadersOf(ws.header), ws.rows, kind)
  }

  // ----- The writes of a sheet, independent of what the database holds -----

  function IdsOf(es: seq<Employee>): set<string>
  {
    set k | 0 <= k < |es| :: es[k].id
  }

  function WheresOf(ws: seq<RoleUpsert>): set<string>
  {
    set k | 0 <= k < |ws| :: ws[k].where
  }

  datatype RowWrites = RowWrites(employees: seq<Employee>, roles: seq<RoleUpsert>, failure: Option<RowError>)

  /** The upserts the row loop issues, in order. Row `k` yields the `k`-th employee upsert,
      keyed by the string of its id cell; the loop stops at the first row that raises. */
  function Writes(h: Headers, rows: seq<seq<Cell>>, withRoles: bool): (w: RowWrites)
    ensures |w.employees| <= |rows|
    ensures forall k :: 0 <= k < |w.employees| ==> EmployeeOfRow(h, rows[k]) == Ok(w.employees[k])
    ensures w.failure.None? <==> |w.employees| == |rows|
    ensures w.failure.Some? ==> EmployeeOfRow(h, rows[|w.employees|]) == Err(w.failure.value)
    ensures !withRoles ==> w.roles == []
    decreases |rows|
  {
    if |rows| == 0 then RowWrites([], [], None)
    else
      match EmployeeOfRow(h, rows[0])
      case Err(e) => RowWrites([], [], Some(e))
      case Ok(emp) =>
        var rest := Writes(h, rows[1..], withRoles);
        var role := if withRoles && RoleOfRow(h, rows[0], emp).Ok? then [RoleOfRow(h, rows[0], emp).value] else [];
        var w := RowWrites([emp] + rest.employees, role + rest.roles, rest.failure);
        assert forall k :: 1 <= k < |w.employees| ==> w.employees[k] == rest.employees[k - 1];
        w
  }

  /** Each role write has the same id, features and employee link in its create and update shapes. */
  lemma {:induction false} WritesRoles(h: Headers, rows: seq<seq<Cell>>, withRoles: bool)
    ensures forall k :: 0 <= k < |Writes(h, rows, withRoles).roles| ==> Consistent(Writes(h, rows, withRoles).roles[k])
    decreases |rows|
  {
    if |rows| > 0 && EmployeeOfRow(h, rows[0]).Ok? {
      WritesRoles(h, rows[1..], withRoles);
      var emp := EmployeeOfRow(h, rows[0]).value;
      var rest := Writes(h, rows[1..], withRoles);
      var role := if withRoles && RoleOfRow(h, rows[0], emp).Ok? then [RoleOfRow(h, rows[0], emp).value] else [];
      var w := Writes(h, rows, withRoles);
      assert w.roles == role + rest.roles;
      forall k | 0 <= k < |w.roles| ensures Consistent(w.roles[k]) {
        if k < |role| {
          assert w.roles[k] == RoleOfRow(h, rows[0], emp).value;
        } else {
          assert w.roles[k] == rest.roles[k - |role|];
        }
      }
    }
  }

  /** Employee upserts in order: create and update carry the same data, so each replaces the record. */
  function UpsertEmployees(s: map<string, Employee>, es: seq<Employee>): map<string, Employee>
    decreases |es|
  {
    if |es| == 0 then s else UpsertEmployees(s[es[0].id := es[0]], es[1..])
  }

  function UpsertRoles(s: map<string, RoleRecord>, ws: seq<RoleUpsert>): map<string, RoleRecord>
    decreases |ws|
  {
    if |ws| == 0 then s else UpsertRoles(UpsertRole(s, ws[0]), ws[1..])
  }

  /** The database after a sequence of writes to the employee table and to the role table of `kind`. */
  function Apply(t: Tables, es: seq<Employee>, roles: seq<RoleUpsert>, kind: RoleKind): Tables
  {
    var t1 := t.(employees := UpsertEmployees(t.employees, es));
    match kind
    case PmRole => t1.(pms := UpsertRoles(t1.pms, roles))
    case DevRole => t1.(devs := UpsertRoles(t1.devs, roles))
    case SelectionRole => t1
  }

  /** The row loop is the application of its writes: the writes depend on the sheet alone. */
  lemma {:induction false} ImportRowsIsWrites(t: Tables, h: Headers, rows: seq<seq<Cell>>, kind: RoleKind)
    ensures var w := Writes(h, rows, kind != SelectionRole);
      ImportRows(t, h, rows, kind) == SheetResult(Apply(t, w.employees, w.roles, kind), w.failure)
    decreases |rows|
  {
    if |rows| > 0 && EmployeeOfRow(h, rows[0]).Ok? {
      var emp := EmployeeOfRow(h, rows[0]).value;
      var t1 := AfterRow(t, h, rows[0], emp, kind);
      ImportRowsIsWrites(t1, h, rows[1..], kind);
      var rest := Writes(h, rows[1..], kind != SelectionRole);
      var w := Writes(h, rows, kind != SelectionRole);
      assert w.employees[1..] == rest.employees;
      if kind != SelectionRole && RoleOfRow(h, rows[0], emp).Ok? {
        assert w.roles[1..] == rest.roles;
      } else {
        assert w.roles == rest.roles;
      }
    }
  }

  /** Writing a key that a later sequence of employee upserts writes again makes no difference. */
  lemma {:induction false} OverwrittenEmployee(s: map<string, Employee>, e: Employee, es: seq<Employee>)
    requires e.id in IdsOf(es)
    ensures UpsertEmployees(s[e.id := e], es) == UpsertEmployees(s, es)
    decreases |es|
  {
    if es[0].id == e.id {
      assert s[e.id := e][es[0].id := es[0]] == s[es[0].id := es[0]];
    } else {
      assert s[e.id := e][es[0].id := es[0]] == s[es[0].id := es[0]][e.id := e];
      var k :| 0 <= k < |es| && es[k].id == e.id;
      assert es[1..][k - 1].id == e.id;
      OverwrittenEmployee(s[es[0].id := es[0]], e, es[1..]);
    }
  }

  lemma {:induction false} EmployeesAbsorb(s: map<string, Employee>, u: seq<Employee>, v: seq<Employee>)
    requires IdsOf(u) <= IdsOf(v)
    ensures UpsertEmployees(UpsertEmployees(s, u), v) == UpsertEmployees(s, v)
    decreases |u|
  {
    if |u| > 0 {
      assert IdsOf(u[1..]) <= IdsOf(u) by {
        forall x | x in IdsOf(u[1..]) ensures x in IdsOf(u) {
          var k :| 0 <= k < |u[1..]| && u[1..][k].id == x;
          assert u[k + 1].id == x;
        }
      }
      EmployeesAbsorb(s[u[0].id := u[0]], u[1..], v);
      assert u[0].id in IdsOf(u);
      OverwrittenEmployee(s, u[0], v);
    }
  }

  /** A consistent upsert of a key already upserted replaces what the first one wrote. */
  lemma UpsertRoleTwice(s: map<string, RoleRecord>, x: RoleUpsert, w: RoleUpsert)
    requires x.where == w.where && Consistent(w)
    ensures UpsertRole(UpsertRole(s, x), w) == UpsertRole(s, w)
  {
  }

  lemma UpsertRoleCommute(s: map<string, RoleRecord>, x: RoleUpsert, w: RoleUpsert)
    requires x.where != w.where
    ensures UpsertRole(UpsertRole(s, x), w) == UpsertRole(UpsertRole(s, w), x)
  {
  }

  lemma {:induction false} OverwrittenRole(s: map<string, RoleRecord>, x: RoleUpsert, ws: seq<RoleUpsert>)
    requires x.where in WheresOf(ws)
    requires forall k :: 0 <= k < |ws| ==> Consistent(ws[k])
    ensures UpsertRoles(UpsertRole(s, x), ws) == UpsertRoles(s, ws)
    decreases |ws|
  {
    if ws[0].where == x.where {
      UpsertRoleTwice(s, x, ws[0]);
    } else {
      UpsertRoleCommute(s, x, ws[0]);
      var k :| 0 <= k < |ws| && ws[k].where == x.where;
      assert ws[1..][k - 1].where == x.where;
      OverwrittenRole(UpsertRole(s, ws[0]), x, ws[1..]);
    }
  }

  lemma {:induction false} RolesAbsorb(s: map<string, RoleRecord>, u: seq<RoleUpsert>, v: seq<RoleUpsert>)
    requires WheresOf(u) <= WheresOf(v)
    requires forall k :: 0 <= k < |v| ==> Consistent(v[k])
    ensures UpsertRoles(UpsertRoles(s, u), v) == UpsertRoles(s, v)
    decreases |u|
  {
    if |u| > 0 {
      assert WheresOf(u[1..]) <= WheresOf(u) by {
        forall x | x in WheresOf(u[1..]) ensures x in WheresOf(u) {
          var k :| 0 <= k < |u[1..]| && u[1..][k].where == x;
          assert u[k + 1].where == x;
        }
      }
      RolesAbsorb(UpsertRole(s, u[0]), u[1..], v);
      assert u[0].where in WheresOf(u);
      OverwrittenRole(s, u[0], v);
    }
  }

  /** Importing the same worksheet twice leaves the database as importing it once, and fails the same way. */
  lemma ImportSheetIdempotent(t: Tables, ws: Worksheet, kind: RoleKind)
    ensures ImportSheet(ImportSheet(t, ws, kind).tables, ws, kind) == ImportSheet(t, ws, kind)
  {
    var h := HeadersOf(ws.header);
    var w := Writes(h, ws.rows, kind != SelectionRole);
    ImportRowsIsWrites(t, h, ws.rows, kind);
    var t1 := ImportSheet(t, ws, kind).tables;
    ImportRowsIsWrites(t1, h, ws.rows, kind);
    WritesRoles(h, ws.rows, kind != SelectionRole);
    EmployeesAbsorb(t.employees, w.employees, w.employees);
    RolesAbsorb(t.pms, w.roles, w.roles);
    RolesAbsorb(t.devs, w.roles, w.roles);
  }

  /** A later upsert of the same id wins: an employee row that is the last with its id is what the table holds. */
  lemma {:induction false} LastEmployeeWins(s: map<string, Employee>, es: seq<Employee>, k: nat)
    requires k < |es|
    requires forall j :: k < j < |es| ==> es[j].id != es[k].id
    ensures es[k].id in UpsertEmployees(s, es) && UpsertEmployees(s, es)[es[k].id] == es[k]
    decreases |es|
  {
    if k == 0 {
      UntouchedEmployee(s[es[0].id := es[0]], es[1..], es[0].id);
    } else {
      LastEmployeeWins(s[es[0].id := es[0]], es[1..], k - 1);
    }
  }

  lemma {:induction false} UntouchedEmployee(s: map<string, Employee>, es: seq<Employee>, id: string)
    requires forall j :: 0 <= j < |es| ==> es[j].id != id
    ensures id in s ==> id in UpsertEmployees(s, es) && UpsertEmployees(s, es)[id] == s[id]
    ensures id !in s ==> id !in UpsertEmployees(s, es)
    decreases |es|
  {
    if |es| > 0 {
      UntouchedEmployee(s[es[0].id := es[0]], es[1..], id);
    }
  }

  // ----- Workbook -----

  function SheetNames(kind: RoleKind): seq<string>
  {
    match kind
    case PmRole => PmSheets
    case DevRole => DevSheets
    case SelectionRole => SelectionSheets
  }

  /** Why an import stops: a staff sheet is missing (`dimensions` read on `undefined`), or a row raised. */
  datatype ImportError = MissingSheet(kind: RoleKind) | BadRow(kind: RoleKind, error: RowError)

  datatype BookResult = BookResult(tables: Tables, failure: Option<ImportError>)

  /** parseExcel over the sheets of `kinds`, in order, stopping at the first failure. */
  function ImportKinds(t: Tables, book: seq<Worksheet>, kinds: seq<RoleKind>): (r: BookResult)
    ensures r.failure.None? ==> forall i :: 0 <= i < |kinds| ==> FilterWorkbook(book, SheetNames(kinds[i])).Some?
    ensures r.failure.Some? ==> r.failure.value.kind in kinds
    ensures r.failure.Some? && r.failure.value.MissingSheet? ==>
      FilterWorkbook(book, SheetNames(r.failure.value.kind)).None?
    decreases |kinds|
  {
    if |kinds| == 0 then BookResult(t, None)
    else
      match FilterWorkbook(book, SheetNames(kinds[0]))
      case None => BookResult(t, Some(MissingSheet(kinds[0])))
      case Some(ws) =>
        var r := ImportSheet(t, ws, kinds[0]);
        if r.failure.Some? then BookResult(r.tables, Some(BadRow(kinds[0], r.failure.value)))
        else
          assert forall i :: 1 <= i < |kinds| ==> kinds[i] == kinds[1..][i - 1];
          ImportKinds(r.tables, book, kinds[1..])
  }

  /** One sheet of the workbook import: a missing sheet or a failing row stops it, otherwise the next sheet follows. */
  lemma ImportKindsHead(t: Tables, book: seq<Worksheet>, kinds: seq<RoleKind>)
    requires |kinds| > 0
    ensures var ws := FilterWorkbook(book, SheetNames(kinds[0]));
      && (ws.None? ==> ImportKinds(t, book, kinds) == BookResult(t, Some(MissingSheet(kinds[0]))))
      && (ws.Some? && ImportSheet(t, ws.value, kinds[0]).failure.Some? ==>
            ImportKinds(t, book, kinds)
            == BookResult(ImportSheet(t, ws.value, kinds[0]).tables,
                          Some(BadRow(kinds[0], ImportSheet(t, ws.value, kinds[0]).failure.value))))
      && (ws.Some? && ImportSheet(t, ws.value, kinds[0]).failure.None? ==>
            ImportKinds(t, book, kinds) == ImportKinds(ImportSheet(t, ws.value, kinds[0]).tables, book, kinds[1..]))
  {
  }

  /** A sheet writes the employee table and the role table of its kind, and nothing else. */
  lemma ImportSheetFrame(t: Tables, ws: Worksheet, kind: RoleKind)
    ensures var r := ImportSheet(t, ws, kind).tables;
      && r.projects == t.projects && r.clients == t.clients
      && (kind != SelectionRole ==> r.underSelection == t.underSelection)
      && (kind != PmRole ==> r.pms == t.pms)
      && (kind != DevRole ==> r.devs == t.devs)
  {
    ImportRowsIsWrites(t, HeadersOf(ws.header), ws.rows, kind);
  }

  /** The PM sheet, then the developer sheet, then the under-selection sheet. */
  const ImportOrder: seq<RoleKind> := [PmRole, DevRole, SelectionRole]

  /** The import never writes projects or clients, and writes a role table only when the sheet of
      that role is imported. */
  lemma {:induction false} ImportKindsFrame(t: Tables, book: seq<Worksheet>, kinds: seq<RoleKind>)
    ensures var r := ImportKinds(t, book, kinds).tables;
      r.projects == t.projects && r.clients == t.clients
    ensures (SelectionRole !in kinds ==> ImportKinds(t, book, kinds).tables.underSelection == t.underSelection)
    ensures (PmRole !in kinds ==> ImportKinds(t, book, kinds).tables.pms == t.pms)
    ensures (DevRole !in kinds ==> ImportKinds(t, book, kinds).tables.devs == t.devs)
    decreases |kinds|
  {
    if |kinds| > 0 {
      match FilterWorkbook(book, SheetNames(kinds[0]))
      case None =>
      case Some(ws) =>
        ImportSheetFrame(t, ws, kinds[0]);
        var r := ImportSheet(t, ws, kinds[0]);
        if r.failure.None? {
          assert forall k :: k in kinds[1..] ==> k in kinds;
          ImportKindsFrame(r.tables, book, kinds[1..]);
        }
    }
  }

  /** The import service. */
  class ExcelParser {
    const db: Db

    constructor (db: Db)
      ensures this.db == db
    {
      this.db := db;
    }

    /** parseHeaders: visits the non-empty header cells left to right, each match overwriting its slot. */
    method ParseHeaders(ws: Worksheet) returns (h: Headers)
      ensures forall s :: h.Get(s) == LastColumn(ws.header, s)
      ensures h == HeadersOf(ws.header)
      ensures h.name == None
    {
      h := NoHeaders;
      var i := 0;
      while i < |ws.header|
        invariant 0 <= i <= |ws.header|
        invariant h == HeadersOf(ws.header[..i])
      {
        assert ws.header[..i + 1][..i] == ws.header[..i];
        h := Step(h, ws.header[i], i + 1);
        i := i + 1;
      }
      assert ws.header[..i] == ws.header;
      forall s ensures h.Get(s) == LastColumn(ws.header, s) {
        HeadersOfSlots(ws.header, s);
      }
    }

    /** parsePM: the PM upsert of one row. */
    method ParsePM(e: Employee, row: seq<Cell>, h: Headers)
      modifies db
      ensures db.tables == old(db.tables).(pms := RoleStep(old(db.tables.pms), h, row, e))
    {
      match RoleOfRow(h, row, e)
      case Err(_) =>
      case Ok(w) => db.tables := db.tables.(pms := UpsertRole(db.tables.pms, w));
    }

    /** parseDev: the developer upsert of one row. */
    method ParseDev(e: Employee, row: seq<Cell>, h: Headers)
      modifies db
      ensures db.tables == old(db.tables).(devs := RoleStep(old(db.tables.devs), h, row, e))
    {
      match RoleOfRow(h, row, e)
      case Err(_) =>
      case Ok(w) => db.tables := db.tables.(devs := UpsertRole(db.tables.devs, w));
    }

    /** parseEmployee: the row loop over rows `top + 1 .. bottom`, an employee upsert per row, then the role step. */
    method ParseEmployee(ws: Worksheet, kind: RoleKind) returns (failure: Option<RowError>)
      modifies db
      ensures db.tables == ImportSheet(old(db.tables), ws, kind).tables
      ensures failure == ImportSheet(old(db.tables), ws, kind).failure
    {
      var headers := ParseHeaders(ws);
      ghost var goal := ImportRows(db.tables, headers, ws.rows, kind);
      assert goal == ImportSheet(old(db.tables), ws, kind);
      var i := 0;
      assert ws.rows[i..] == ws.rows;
      while i < |ws.rows|
        invariant 0 <= i <= |ws.rows|
        invariant ImportRows(db.tables, headers, ws.rows[i..], kind) == goal
      {
        var row := ws.rows[i];
        ImportRowsStep(db.tables, headers, ws.rows, i, kind);
        ghost var before := db.tables;
        var built := EmployeeOfRow(headers, row);
        if built.Err? {
          return Some(built.error);
        }
        var employee := built.value;
        db.tables := db.tables.(employees := db.tables.employees[employee.id := employee]);
        match kind {
          case PmRole => ParsePM(employee, row, headers);
          case DevRole => ParseDev(employee, row, headers);
          case SelectionRole =>
        }
        assert db.tables == AfterRow(before, headers, row, employee, kind);
        i := i + 1;
      }
      return None;
    }

    /** One stage of parseExcel: find the sheet of `kinds[0]`, then parse its rows. `more` says the
        import goes on with the next sheet. */
    method ImportStage(book: seq<Worksheet>, kinds: seq<RoleKind>) returns (failure: Option<ImportError>, more: bool)
      requires |kinds| > 0
      modifies db
      ensures more ==> failure.None? && ImportKinds(old(db.tables), book, kinds) == ImportKinds(db.tables, book, kinds[1..])
      ensures !more ==> ImportKinds(old(db.tables), book, kinds) == BookResult(db.tables, failure)
    {
      ImportKindsHead(db.tables, book, kinds);
      var sheet := FilterWorkbook(book, SheetNames(kinds[0]));
      if sheet.None? {
        return Some(MissingSheet(kinds[0])), false;
      }
      var e := ParseEmployee(sheet.value, kinds[0]);
      if e.Some? {
        return Some(BadRow(kinds[0], e.value)), false;
      }
      return None, true;
    }

    /** parseExcel: the PM, developer and under-selection sheets, in that order. */
    method ParseExcel(book: seq<Worksheet>) returns (failure: Option<ImportError>)
      modifies db
      ensures db.tables == ImportKinds(old(db.tables), book, ImportOrder).tables
      ensures failure == ImportKinds(old(db.tables), book, ImportOrder).failure
    {
      var more: bool;
      failure, more := ImportStage(book, ImportOrder);
      if !more {
        return;
      }
      assert ImportOrder[1..][1..] == ImportOrder[2..];
      failure, more := ImportStage(book, ImportOrder[1..]);
      if !more {
        return;
      }
      assert ImportOrder[2..][1..] == [];
      failure, more := ImportStage(book, ImportOrder[2..]);
      if !more {
        return;
      }
    }
  }
}

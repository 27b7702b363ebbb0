/** Worksheets, the choice of a sheet by name, and the classification of header cells
    into the columns the staff import reads (excel.parser.ts: filterWorkbook, parseHeaders). */
module Sheets {
  import opened Wrappers
  import opened Strings
  import opened Store

  /** A worksheet: its name, the cells of its first used row (the header row, `top`) and the
      cells of the rows below it down to the last used row (`top + 1 .. bottom`). */
  datatype Worksheet = Worksheet(name: string, header: seq<Cell>, rows: seq<seq<Cell>>)

  /** Sheet-name aliases of the three staff sheets. */
  const PmSheets: seq<string> := ["pm", "pms", "project manager", "project managers"]
  const DevSheets: seq<string> :=
    ["dev", "devs", "desarrollador", "desarrolladores", "developer", "developers"]
  const SelectionSheets: seq<string> := [
    "under selection", "selection", "en seleccion", "en selecci\U{F3}n",
    "desarrolladores en seleccion", "desarrolladores en selecci\U{F3}n",
    "desarrolladores en proceso de seleccion", "desarrolladores en proceso de selecci\U{F3}n"]

  predicate NamedAs(ws: Worksheet, names: seq<string>)
  {
    Lower(ws.name) in names
  }

  /** `workbook.worksheets.find(...)`: the first sheet whose lower-cased name is one of `names`. */
  function FilterWorkbook(sheets: seq<Worksheet>, names: seq<string>): (r: Option<Worksheet>)
    ensures r.None? <==> forall i :: 0 <= i < |sheets| ==> !NamedAs(sheets[i], names)
    ensures r.Some? ==> exists i ::
      (0 <= i < |sheets| && sheets[i] == r.value && NamedAs(sheets[i], names)
       && forall j :: 0 <= j < i ==> !NamedAs(sheets[j], names))
  {
    if |sheets| == 0 then None
    else if NamedAs(sheets[0], names) then Some(sheets[0])
    else
      var r := FilterWorkbook(sheets[1..], names);
      assert forall i :: 1 <= i < |sheets| ==> sheets[i] == sheets[1..][i - 1];
      r
  }

  /** The column slots of the staff sheets. */
  datatype Slot = Id | Name | FirstName | LastName | Salary | Date | Features

  /** Header aliases of each slot. */
  const Ids: seq<string> := ["id", "documento"]
  const Names: seq<string> := ["name", "nombre"]
  const FirstNames: seq<string> := ["nombre", "name", "first name", "first_name"]
  const LastNames: seq<string> := ["apellido", "last name", "last_name"]
  const Salaries: seq<string> := ["salario", "sueldo", "salary", "pay", "wage"]
  const Dates: seq<string> :=
    ["fecha", "fecha disponibilidad", "date", "date available", "fecha fin", "fecha finalizacion", "end date"]
  const FeatureNames: seq<string> :=
    ["features", "characteristics", "caracteristicas", "caracter\U{ED}sticas", "attributes"]

  /** The cases of the header switch, in the order they are tested. */
  const Cases: seq<(Slot, seq<string>)> := [
    (Id, Ids), (FirstName, FirstNames), (LastName, LastNames), (Name, Names),
    (Salary, Salaries), (Date, Dates), (Features, FeatureNames)]

  /** `switch (true)` over `cases`: the slot of the first case whose aliases hold `t`. */
  function FirstCase(t: string, cases: seq<(Slot, seq<string>)>): (r: Option<Slot>)
    ensures r.None? <==> forall i :: 0 <= i < |cases| ==> t !in cases[i].1
    ensures r.Some? ==> exists i ::
      (0 <= i < |cases| && cases[i].0 == r.value && t in cases[i].1
       && forall j :: 0 <= j < i ==> t !in cases[j].1)
  {
    if |cases| == 0 then None
    else if t in cases[0].1 then Some(cases[0].0)
    else
      assert forall i :: 1 <= i < |cases| ==> cases[i] == cases[1..][i - 1];
      FirstCase(t, cases[1..])
  }

  /** The slot a lower-cased header selects. The `name` case is never reached: each of its
      aliases is also a first-name alias, and the first-name case is tested before it. */
  function Classify(t: string): (r: Option<Slot>)
    ensures r.None? <==> forall i :: 0 <= i < |Cases| ==> t !in Cases[i].1
    ensures r.Some? ==> exists i ::
      (0 <= i < |Cases| && Cases[i].0 == r.value && t in Cases[i].1
       && forall j :: 0 <= j < i ==> t !in Cases[j].1)
    ensures r != Some(Name)
  {
    assert Cases[3].0 == Name && forall x :: x in Cases[3].1 ==> x in Cases[1].1;
    FirstCase(t, Cases)
  }

  /** A 1-based column number, as exceljs numbers columns. */
  type Col = c: nat | 1 <= c witness 1

  /** The column chosen for each slot; `None` is a slot no header matched (`undefined`). */
  datatype Headers = Headers(
    id: Option<Col>, name: Option<Col>, firstName: Option<Col>, lastName: Option<Col>,
    salary: Option<Col>, date: Option<Col>, features: Option<Col>)
  {
    function Get(s: Slot): Option<Col>
    {
      match s
      case Id => id
      case Name => name
      case FirstName => firstName
      case LastName => lastName
      case Salary => salary
      case Date => date
      case Features => features
    }

    /** `{ ...headers, s: col }`: slot `s` becomes `col` and every other slot keeps its column. */
    function Set(s: Slot, col: Col): (r: Headers)
      ensures r.Get(s) == Some(col)
      ensures forall s' :: s' != s ==> r.Get(s') == Get(s')
    {
      match s
      case Id => this.(id := Some(col))
      case Name => this.(name := Some(col))
      case FirstName => this.(firstName := Some(col))
      case LastName => this.(lastName := Some(col))
      case Salary => this.(salary := Some(col))
      case Date => this.(date := Some(col))
      case Features => this.(features := Some(col))
    }
  }

  /** Every slot starts `undefined`. */
  const NoHeaders := Headers(None, None, None, None, None, None, None)

  /** `value.toString()`; `null` has no `toString`. */
  function Show(c: Cell): Option<string>
  {
    match c
    case Str(s) => Some(s)
    case Num(n) => Some(IntToString(n))
    case Null => None
  }

  /** The slot a header cell selects; an empty cell is skipped by `eachCell` and selects nothing. */
  function HeaderSlot(c: Cell): Option<Slot>
  {
    match Show(c)
    case None => None
    case Some(t) => Classify(Lower(t))
  }

  /** One visit of the header callback: a matching header overwrites its slot, any other header changes nothing. */
  function Step(h: Headers, c: Cell, col: Col): (r: Headers)
    ensures HeaderSlot(c).None? ==> r == h
    ensures HeaderSlot(c).Some? ==>
      (r.Get(HeaderSlot(c).value) == Some(col)
       && forall s :: s != HeaderSlot(c).value ==> r.Get(s) == h.Get(s))
  {
    match HeaderSlot(c)
    case None => h
    case Some(s) => h.Set(s, col)
  }

  /** The reference reading of a header row: the right-most column whose header selects `s`. */
  function LastColumn(header: seq<Cell>, s: Slot): (r: Option<Col>)
    ensures r.Some? ==>
      (r.value <= |header| && HeaderSlot(header[r.value - 1]) == Some(s)
       && forall k :: r.value <= k < |header| ==> HeaderSlot(header[k]) != Some(s))
    ensures r.None? <==> forall k :: 0 <= k < |header| ==> HeaderSlot(header[k]) != Some(s)
  {
    if |header| == 0 then None
    else if HeaderSlot(header[|header| - 1]) == Some(s) then Some(|header|)
    else
      assert forall k :: 0 <= k < |header| - 1 ==> header[k] == header[..|header| - 1][k];
      LastColumn(header[..|header| - 1], s)
  }

  /** The header record the import works with: every non-empty header cell visited left to right.
      Every column it holds is a column of the header row, and the `name` slot is never set. */
  function HeadersOf(header: seq<Cell>): (r: Headers)
    ensures r.name == None
    ensures forall s :: r.Get(s).Some? ==> r.Get(s).value <= |header|
  {
    if |header| == 0 then NoHeaders
    else Step(HeadersOf(header[..|header| - 1]), header[|header| - 1], |header|)
  }

  /** When several columns match one slot the last one wins: each slot ends at the right-most column
      whose header selects it, and a slot no header selects stays undefined. */
  lemma {:induction false} HeadersOfSlots(header: seq<Cell>, s: Slot)
    ensures HeadersOf(header).Get(s) == LastColumn(header, s)
  {
    if |header| > 0 {
      HeadersOfSlots(header[..|header| - 1], s);
    }
  }
}

/** The persistent state the backend reads and writes through its generated query layer:
    branches, sheets, columns and cells (the `column_data` table), and the user/table
    permission relation.

    The SQL behind the queries is not part of this model. Each query the handlers use is
    given here a plain meaning over sequences in insertion order:
    - reads never fail;
    - every write is one call, numbered in order;
    - a write fails exactly when its number is in `faults`;
    - a failed write changes nothing but the call counter;
    - ids are drawn from the counter `nextId`, so a new id never equals an older one.

    `Db` is the value of the store; `Database` is the mutable store the handlers act on.
    Each method of `Database` is stated against the `Db` function with the same name. */
module Store {
  import opened Wrappers

  type Uuid = nat
  type Time = int

  /** `time.Time.After`: strictly later. */
  predicate After(t: Time, u: Time) { t > u }

  datatype BranchRecord = BranchRecord(id: Uuid, tableId: Uuid, name: string, isProtected: bool, createdAt: Time)

  /** `rowCount` is the stored `row_count` column, never negative; a new sheet starts at 0. */
  datatype SheetRecord = SheetRecord(
    id: Uuid, branchId: Uuid, name: string, kind: string, rowCount: nat,
    sourceSheetId: Option<Uuid>, updatedAt: Time)

  datatype ColumnRecord = ColumnRecord(
    id: Uuid, sheetId: Uuid, name: string, kind: string, required: bool,
    sourceColumnId: Option<Uuid>, updatedAt: Option<Time>)

  datatype CellRecord = CellRecord(
    id: Uuid, columnId: Uuid, idx: int, value: Option<string>, kind: Option<string>,
    createdAt: Option<Time>, updatedAt: Option<Time>)

  /** One row of `GetColumnsWithDataBySheet`: a column left-joined with its cells. */
  datatype ColumnDataRow = ColumnDataRow(
    columnId: Uuid, columnName: string, columnType: string, columnRequired: bool,
    dataId: Option<Uuid>, dataIdx: Option<int>, dataValue: Option<string>, dataType: Option<string>)

  /** One row of `GetBranchDataForMerge`: a sheet left-joined with its columns and their cells. */
  datatype MergeRow = MergeRow(
    sheetId: Uuid, sheetName: string, sheetType: string, sheetUpdatedAt: Time,
    sourceSheetId: Option<Uuid>,
    columnId: Option<Uuid>, columnName: Option<string>, columnType: Option<string>,
    columnRequired: Option<bool>, columnUpdatedAt: Option<Time>, sourceColumnId: Option<Uuid>,
    dataId: Option<Uuid>, dataIdx: Option<int>, dataValue: Option<string>,
    dataCreatedAt: Option<Time>, dataUpdatedAt: Option<Time>)

  /** A write a handler may issue, as a value, so that a sequence of them can be planned
      and then replayed against a `Db`. */
  datatype Write =
    | CreateSheet(branchId: Uuid, name: string, kind: string, source: Option<Uuid>)
    | AddColumn(sheetId: Uuid, name: string, kind: string, required: bool, source: Option<Uuid>)
    | CreateColumnData(columnId: Uuid, idx: int, value: Option<string>, dataKind: Option<string>)
    | UpdateColumnData(id: Uuid, value: Option<string>)
    | UpdateColumn(id: Uuid, name: string, kind: string, required: bool)
    | RenameSheet(id: Uuid, name: string)

  /** The elements of `s` that satisfy `p`, in order. */
  function Filter<T(!new)>(s: seq<T>, p: T -> bool): (r: seq<T>)
    ensures |r| <= |s|
    ensures forall x :: x in r <==> x in s && p(x)
  {
    if s == [] then [] else (if p(s[0]) then [s[0]] else []) + Filter(s[1..], p)
  }

  /** The first element of `s` that satisfies `p`. */
  function Find<T(!new)>(s: seq<T>, p: T -> bool): (r: Option<T>)
    ensures r.Some? ==> r.value in s && p(r.value)
    ensures r.None? <==> forall x :: x in s ==> !p(x)
    ensures r.Some? ==> exists i :: 0 <= i < |s| && s[i] == r.value && forall j :: 0 <= j < i ==> !p(s[j])
  {
    if s == [] then None else if p(s[0]) then Some(s[0]) else Find(s[1..], p)
  }

  /** The first branch of `bs` with id `id`. */
  function BranchById(bs: seq<BranchRecord>, id: Uuid): Option<BranchRecord>
  {
    Find(bs, (b: BranchRecord) => b.id == id)
  }

  /** The branch with the least creation time; of several such, the first. */
  function OldestIn(bs: seq<BranchRecord>): (r: Option<BranchRecord>)
    ensures r.None? <==> bs == []
    ensures r.Some? ==> r.value in bs && forall b :: b in bs ==> r.value.createdAt <= b.createdAt
  {
    if bs == [] then None
    else
      var rest := OldestIn(bs[1..]);
      if rest.None? || bs[0].createdAt <= rest.value.createdAt then Some(bs[0]) else rest
  }

  /** The cells with the one whose id is `id` given a new value (an SQL `UPDATE ... WHERE id`). */
  function CellsWithValue(cells: seq<CellRecord>, id: Uuid, value: Option<string>, now: Time): (r: seq<CellRecord>)
    ensures |r| == |cells|
    ensures forall i :: 0 <= i < |r| ==>
      r[i] == if cells[i].id == id then cells[i].(value := value, updatedAt := Some(now)) else cells[i]
  {
    seq(|cells|, i requires 0 <= i < |cells| =>
      if cells[i].id == id then cells[i].(value := value, updatedAt := Some(now)) else cells[i])
  }

  function ColumnsWithProps(columns: seq<ColumnRecord>, id: Uuid, name: string, kind: string, required: bool, now: Time): (r: seq<ColumnRecord>)
    ensures |r| == |columns|
    ensures forall i :: 0 <= i < |r| ==>
      r[i] == if columns[i].id == id then columns[i].(name := name, kind := kind, required := required, updatedAt := Some(now)) else columns[i]
  {
    seq(|columns|, i requires 0 <= i < |columns| =>
      if columns[i].id == id then columns[i].(name := name, kind := kind, required := required, updatedAt := Some(now))
      else columns[i])
  }

  function SheetsWithName(sheets: seq<SheetRecord>, id: Uuid, name: string, now: Time): (r: seq<SheetRecord>)
    ensures |r| == |sheets|
    ensures forall i :: 0 <= i < |r| ==>
      r[i] == if sheets[i].id == id then sheets[i].(name := name, updatedAt := now) else sheets[i]
  {
    seq(|sheets|, i requires 0 <= i < |sheets| =>
      if sheets[i].id == id then sheets[i].(name := name, updatedAt := now) else sheets[i])
  }

  datatype Db = Db(
    branches: seq<BranchRecord>, sheets: seq<SheetRecord>, columns: seq<ColumnRecord>,
    cells: seq<CellRecord>, userTables: map<(Uuid, Uuid), string>,
    nextId: Uuid, calls: nat, faults: set<nat>, clock: Time)
  {
    // ---- reads ----

    function GetBranch(id: Uuid): Option<BranchRecord> { BranchById(branches, id) }
    function GetSheet(id: Uuid): Option<SheetRecord> { Find(sheets, (s: SheetRecord) => s.id == id) }
    function GetBranchesFromTable(table: Uuid): seq<BranchRecord> { Filter(branches, (b: BranchRecord) => b.tableId == table) }
    function GetSheetsFromBranch(branch: Uuid): seq<SheetRecord> { Filter(sheets, (s: SheetRecord) => s.branchId == branch) }
    function ColumnsOfSheet(sheet: Uuid): seq<ColumnRecord> { Filter(columns, (c: ColumnRecord) => c.sheetId == sheet) }
    function CellsOfColumn(column: Uuid): seq<CellRecord> { Filter(cells, (d: CellRecord) => d.columnId == column) }

    /** `GetOldestBranchFromTable`; `None` stands for `sql.ErrNoRows`. */
    function GetOldestBranchFromTable(table: Uuid): Option<BranchRecord> { OldestIn(GetBranchesFromTable(table)) }

    /** `GetUserTables`; `None` stands for the missing row. */
    function GetUserTables(user: Uuid, table: Uuid): Option<string>
    {
      if (user, table) in userTables then Some(userTables[(user, table)]) else None
    }

    /** `GetColumnsWithDataBySheet`: every column of the sheet with each of its cells, or with
        one row of nulls when it has none. */
    function GetColumnsWithDataBySheet(sheet: Uuid): seq<ColumnDataRow>
    {
      ColumnsJoin(ColumnsOfSheet(sheet))
    }

    function ColumnsJoin(cs: seq<ColumnRecord>): seq<ColumnDataRow>
    {
      if cs == [] then [] else ColumnJoin(cs[0]) + ColumnsJoin(cs[1..])
    }

    function ColumnJoin(c: ColumnRecord): seq<ColumnDataRow>
    {
      var ds := CellsOfColumn(c.id);
      if ds == [] then [ColumnDataRow(c.id, c.name, c.kind, c.required, None, None, None, None)]
      else
        seq(|ds|, i requires 0 <= i < |ds| =>
          ColumnDataRow(c.id, c.name, c.kind, c.required, Some(ds[i].id), Some(ds[i].idx), ds[i].value, ds[i].kind))
    }

    /** `GetBranchDataForMerge`: every sheet of the branch left-joined with its columns and
        their cells. */
    function GetBranchDataForMerge(branch: Uuid): seq<MergeRow>
    {
      SheetsMergeJoin(GetSheetsFromBranch(branch))
    }

    function SheetsMergeJoin(ss: seq<SheetRecord>): seq<MergeRow>
    {
      if ss == [] then [] else SheetMergeJoin(ss[0]) + SheetsMergeJoin(ss[1..])
    }

    function SheetMergeJoin(s: SheetRecord): seq<MergeRow>
    {
      var cs := ColumnsOfSheet(s.id);
      if cs == [] then [MergeRow(s.id, s.name, s.kind, s.updatedAt, s.sourceSheetId,
                                 None, None, None, None, None, None, None, None, None, None, None)]
      else ColumnsMergeJoin(s, cs)
    }

    function ColumnsMergeJoin(s: SheetRecord, cs: seq<ColumnRecord>): seq<MergeRow>
    {
      if cs == [] then [] else ColumnMergeJoin(s, cs[0]) + ColumnsMergeJoin(s, cs[1..])
    }

    function ColumnMergeJoin(s: SheetRecord, c: ColumnRecord): seq<MergeRow>
    {
      var ds := CellsOfColumn(c.id);
      if ds == [] then
        [MergeRow(s.id, s.name, s.kind, s.updatedAt, s.sourceSheetId,
                  Some(c.id), Some(c.name), Some(c.kind), Some(c.required), c.updatedAt, c.sourceColumnId,
                  None, None, None, None, None)]
      else
        seq(|ds|, i requires 0 <= i < |ds| =>
          MergeRow(s.id, s.name, s.kind, s.updatedAt, s.sourceSheetId,
                   Some(c.id), Some(c.name), Some(c.kind), Some(c.required), c.updatedAt, c.sourceColumnId,
                   Some(ds[i].id), Some(ds[i].idx), ds[i].value, ds[i].createdAt, ds[i].updatedAt))
    }

    // ---- writes ----

    /** Whether the next call fails. */
    predicate NextFails() { calls in faults }

    /** The store after a call that changed nothing. */
    function Failed(): Db { this.(calls := calls + 1) }

    function NewBranch(table: Uuid, name: string, isProtected: bool): (Db, Option<Uuid>)
    {
      if NextFails() then (Failed(), None)
      else (this.(branches := branches + [BranchRecord(nextId, table, name, isProtected, clock)],
                  nextId := nextId + 1, calls := calls + 1), Some(nextId))
    }

    function NewSheet(branch: Uuid, name: string, kind: string, source: Option<Uuid>): (Db, Option<Uuid>)
    {
      if NextFails() then (Failed(), None)
      else (this.(sheets := sheets + [SheetRecord(nextId, branch, name, kind, 0, source, clock)],
                  nextId := nextId + 1, calls := calls + 1), Some(nextId))
    }

    function NewColumn(sheet: Uuid, name: string, kind: string, required: bool, source: Option<Uuid>): (Db, Option<Uuid>)
    {
      if NextFails() then (Failed(), None)
      else (this.(columns := columns + [ColumnRecord(nextId, sheet, name, kind, required, source, Some(clock))],
                  nextId := nextId + 1, calls := calls + 1), Some(nextId))
    }

    function NewCell(column: Uuid, idx: int, value: Option<string>, kind: Option<string>): (Db, Option<Uuid>)
    {
      if NextFails() then (Failed(), None)
      else (this.(cells := cells + [CellRecord(nextId, column, idx, value, kind, Some(clock), Some(clock))],
                  nextId := nextId + 1, calls := calls + 1), Some(nextId))
    }

    /** An update of a row that does not exist touches nothing and is not an error. */
    function SetCellValue(id: Uuid, value: Option<string>): (Db, bool)
    {
      if NextFails() then (Failed(), false)
      else (this.(cells := CellsWithValue(cells, id, value, clock),
                  calls := calls + 1), true)
    }

    function SetColumn(id: Uuid, name: string, kind: string, required: bool): (Db, bool)
    {
      if NextFails() then (Failed(), false)
      else (this.(columns := ColumnsWithProps(columns, id, name, kind, required, clock),
                  calls := calls + 1), true)
    }

    function SetSheetName(id: Uuid, name: string): (Db, bool)
    {
      if NextFails() then (Failed(), false)
      else (this.(sheets := SheetsWithName(sheets, id, name, clock),
                  calls := calls + 1), true)
    }

    /** Deleting a branch removes its sheets, their columns and those columns' cells. */
    function RemoveBranch(id: Uuid): (Db, bool)
    {
      if NextFails() then (Failed(), false)
      else (Without(id).(calls := calls + 1), true)
    }

    /** The records without branch `id`, its sheets, their columns and those columns' cells. */
    function Without(id: Uuid): Db
    {
      var goneSheets := SheetIdsOf(sheets, id);
      var goneColumns := ColumnIdsOf(columns, goneSheets);
      this.(branches := Filter(branches, (b: BranchRecord) => b.id != id),
            sheets := Filter(sheets, (s: SheetRecord) => s.branchId != id),
            columns := Filter(columns, (c: ColumnRecord) => c.sheetId !in goneSheets),
            cells := Filter(cells, (d: CellRecord) => d.columnId !in goneColumns))
    }

    /** A call whose effect lies outside the modelled records (a transaction's begin or
        commit, the opened sheet of a user, the default columns of a map sheet). */
    function Call(): (Db, bool)
    {
      (Failed(), !NextFails())
    }

    /** A planned write; `true` when it succeeded. */
    function Apply(w: Write): (Db, bool)
    {
      match w
      case CreateSheet(b, n, k, src) => var (d, r) := NewSheet(b, n, k, src); (d, r.Some?)
      case AddColumn(s, n, k, req, src) => var (d, r) := NewColumn(s, n, k, req, src); (d, r.Some?)
      case CreateColumnData(c, i, v, k) => var (d, r) := NewCell(c, i, v, k); (d, r.Some?)
      case UpdateColumnData(id, v) => SetCellValue(id, v)
      case UpdateColumn(id, n, k, req) => SetColumn(id, n, k, req)
      case RenameSheet(id, n) => SetSheetName(id, n)
    }

    /** What a rolled-back transaction leaves: the records of `saved`, while the call counter
        and the id counter keep their advance. */
    function RolledBackTo(saved: Db): Db
    {
      this.(branches := saved.branches, sheets := saved.sheets, columns := saved.columns, cells := saved.cells)
    }
  }

  /** The ids of the sheets of branch `branch`. */
  function SheetIdsOf(sheets: seq<SheetRecord>, branch: Uuid): set<Uuid>
  {
    set s | s in sheets && s.branchId == branch :: s.id
  }

  /** The ids of the columns of the sheets `sheetIds`. */
  function ColumnIdsOf(columns: seq<ColumnRecord>, sheetIds: set<Uuid>): set<Uuid>
  {
    set c | c in columns && c.sheetId in sheetIds :: c.id
  }

  /** The store as the handlers see it. */
  class Database {
    var branches: seq<BranchRecord>
    var sheets: seq<SheetRecord>
    var columns: seq<ColumnRecord>
    var cells: seq<CellRecord>
    var userTables: map<(Uuid, Uuid), string>
    var nextId: Uuid
    var calls: nat
    var faults: set<nat>
    var clock: Time

    function Snapshot(): Db
      reads this
    {
      Db(branches, sheets, columns, cells, userTables, nextId, calls, faults, clock)
    }

    constructor (d: Db)
      ensures Snapshot() == d
    {
      branches, sheets, columns, cells := d.branches, d.sheets, d.columns, d.cells;
      userTables, nextId, calls, faults, clock := d.userTables, d.nextId, d.calls, d.faults, d.clock;
    }

    method CreateBranch(table: Uuid, name: string, isProtected: bool) returns (id: Option<Uuid>)
      modifies this
      ensures (Snapshot(), id) == old(Snapshot()).NewBranch(table, name, isProtected)
    {
      if calls in faults {
        id := None;
      } else {
        branches := branches + [BranchRecord(nextId, table, name, isProtected, clock)];
        id := Some(nextId);
        nextId := nextId + 1;
      }
      calls := calls + 1;
    }

    method CreateSheet(branch: Uuid, name: string, kind: string, source: Option<Uuid>) returns (id: Option<Uuid>)
      modifies this
      ensures (Snapshot(), id) == old(Snapshot()).NewSheet(branch, name, kind, source)
    {
      if calls in faults {
        id := None;
      } else {
        sheets := sheets + [SheetRecord(nextId, branch, name, kind, 0, source, clock)];
        id := Some(nextId);
        nextId := nextId + 1;
      }
      calls := calls + 1;
    }

    method AddColumn(sheet: Uuid, name: string, kind: string, required: bool, source: Option<Uuid>) returns (id: Option<Uuid>)
      modifies this
      ensures (Snapshot(), id) == old(Snapshot()).NewColumn(sheet, name, kind, required, source)
    {
      if calls in faults {
        id := None;
      } else {
        columns := columns + [ColumnRecord(nextId, sheet, name, kind, required, source, Some(clock))];
        id := Some(nextId);
        nextId := nextId + 1;
      }
      calls := calls + 1;
    }

    /** `CreateColumnData`, and `BulkAddColumnData`, which inserts one cell per call as well. */
    method CreateColumnData(column: Uuid, idx: int, value: Option<string>, kind: Option<string>) returns (id: Option<Uuid>)
      modifies this
      ensures (Snapshot(), id) == old(Snapshot()).NewCell(column, idx, value, kind)
    {
      if calls in faults {
        id := None;
      } else {
        cells := cells + [CellRecord(nextId, column, idx, value, kind, Some(clock), Some(clock))];
        id := Some(nextId);
        nextId := nextId + 1;
      }
      calls := calls + 1;
    }

    method UpdateColumnData(id: Uuid, value: Option<string>) returns (ok: bool)
      modifies this
      ensures (Snapshot(), ok) == old(Snapshot()).SetCellValue(id, value)
    {
      ok := calls !in faults;
      if ok {
        cells := CellsWithValue(cells, id, value, clock);
      }
      calls := calls + 1;
    }

    method UpdateColumn(id: Uuid, name: string, kind: string, required: bool) returns (ok: bool)
      modifies this
      ensures (Snapshot(), ok) == old(Snapshot()).SetColumn(id, name, kind, required)
    {
      ok := calls !in faults;
      if ok {
        columns := ColumnsWithProps(columns, id, name, kind, required, clock);
      }
      calls := calls + 1;
    }

    method RenameSheet(id: Uuid, name: string) returns (ok: bool)
      modifies this
      ensures (Snapshot(), ok) == old(Snapshot()).SetSheetName(id, name)
    {
      ok := calls !in faults;
      if ok {
        sheets := SheetsWithName(sheets, id, name, clock);
      }
      calls := calls + 1;
    }

    method DeleteBranch(id: Uuid) returns (ok: bool)
      modifies this
      ensures (Snapshot(), ok) == old(Snapshot()).RemoveBranch(id)
    {
      ok := calls !in faults;
      if ok {
        var rest := Snapshot().Without(id);
        branches, sheets, columns, cells := rest.branches, rest.sheets, rest.columns, rest.cells;
        calls := calls + 1;
        assert Snapshot() == rest.(calls := calls);
      } else {
        calls := calls + 1;
      }
    }

    method Call() returns (ok: bool)
      modifies this
      ensures (Snapshot(), ok) == old(Snapshot()).Call()
    {
      ok := calls !in faults;
      calls := calls + 1;
    }

    /** Issues a planned write. */
    method Apply(w: Write) returns (ok: bool)
      modifies this
      ensures (Snapshot(), ok) == old(Snapshot()).Apply(w)
    {
      match w
      case CreateSheet(b, n, k, src) =>
        var r := CreateSheet(b, n, k, src);
        ok := r.Some?;
      case AddColumn(s, n, k, req, src) =>
        var r := AddColumn(s, n, k, req, src);
        ok := r.Some?;
      case CreateColumnData(c, i, v, k) =>
        var r := CreateColumnData(c, i, v, k);
        ok := r.Some?;
      case UpdateColumnData(id, v) =>
        ok := UpdateColumnData(id, v);
      case UpdateColumn(id, n, k, req) =>
        ok := UpdateColumn(id, n, k, req);
      case RenameSheet(id, n) =>
        ok := RenameSheet(id, n);
    }

    /** `tx.Rollback()`: the records return to those of `saved`. */
    method Rollback(saved: Db)
      modifies this
      ensures Snapshot() == old(Snapshot()).RolledBackTo(saved)
    {
      branches, sheets, columns, cells := saved.branches, saved.sheets, saved.columns, saved.cells;
    }
  }
}

/** Creating a branch (backend/create_branch.go): the new branch receives a copy of every
    sheet, column and cell of the oldest branch of its table, made inside one transaction,
    and the client is then switched to the new branch's first sheet. */
module CreateBranch {
  import opened Wrappers
  import opened Store
  import opened Columns
  import opened SheetView

  // ---- what a copy is ----

  /** `c` is the copy of cell `e` made in column `column`. */
  predicate CellCopies(c: CellRecord, e: ColumnData, column: Uuid)
  {
    c.columnId == column && c.idx == e.idx && c.value == e.value && c.kind == e.kind
  }

  /** `c` is the copy of column `src` made in sheet `sheet`, remembering where it came from. */
  predicate ColumnCopies(c: ColumnRecord, src: Column, sheet: Uuid)
  {
    c.sheetId == sheet && c.name == src.name && c.kind == src.kind && c.required == src.required
    && c.sourceColumnId == Some(src.id)
  }

  /** `s` is the copy of sheet `src` made in branch `branch`, remembering where it came from. */
  predicate SheetCopies(s: SheetRecord, src: SheetRecord, branch: Uuid)
  {
    s.branchId == branch && s.name == src.name && s.kind == src.kind && s.sourceSheetId == Some(src.id)
  }

  /** The number of cells the columns carry. */
  function CellTotal(columns: seq<Column>): nat
    decreases |columns|
  {
    if columns == [] then 0 else |columns[0].data| + CellTotal(columns[1..])
  }

  // ---- copyColumnDataBatchInTx ----

  /** The store after inserting one cell per entry of `data` into `column`, in order, and the
      error of the first insert that fails. */
  function CopyCells(d: Db, data: seq<ColumnData>, column: Uuid): (Db, Option<string>)
    decreases |data|
  {
    if data == [] then (d, None)
    else
      var (d1, id) := d.NewCell(column, data[0].idx, data[0].value, data[0].kind);
      if id.None? then (d1, Some("could not add column data"))
      else CopyCells(d1, data[1..], column)
  }

  /** Copying cells appends to the cells and nothing else; when it succeeds it appends one
      copy per entry, in order. */
  lemma {:induction false} CopyCellsAppends(d: Db, data: seq<ColumnData>, column: Uuid)
    ensures var (d', e) := CopyCells(d, data, column);
      d'.branches == d.branches && d'.sheets == d.sheets && d'.columns == d.columns
      && d'.userTables == d.userTables && d.cells <= d'.cells
      && (e.Some? ==> e.value == "could not add column data")
      && (e.None? ==>
            |d'.cells| == |d.cells| + |data|
            && forall i :: 0 <= i < |data| ==> CellCopies(d'.cells[|d.cells| + i], data[i], column))
    decreases |data|
  {
    if data != [] {
      var (d1, id) := d.NewCell(column, data[0].idx, data[0].value, data[0].kind);
      if id.Some? {
        CopyCellsAppends(d1, data[1..], column);
        var (d', e) := CopyCells(d1, data[1..], column);
        assert d1.cells == d.cells + [d1.cells[|d.cells|]];
        assert d.cells <= d'.cells by {
          assert d'.cells[..|d.cells|] == d1.cells[..|d.cells|];
        }
        if e.None? {
          forall i | 0 <= i < |data|
            ensures CellCopies(d'.cells[|d.cells| + i], data[i], column)
          {
            if i > 0 {
              assert data[i] == data[1..][i - 1];
            }
          }
        }
      }
    }
  }

  /** The loop of `copyColumnDataBatchInTx`. */
  method CopyColumnDataBatchInTx(db: Database, data: seq<ColumnData>, columnId: Uuid) returns (err: Option<string>)
    modifies db
    ensures (db.Snapshot(), err) == CopyCells(old(db.Snapshot()), data, columnId)
  {
    for j := 0 to |data|
      invariant CopyCells(old(db.Snapshot()), data, columnId) == CopyCells(db.Snapshot(), data[j..], columnId)
    {
      assert data[j..][1..] == data[j + 1..];
      var id := db.CreateColumnData(columnId, data[j].idx, data[j].value, data[j].kind);
      if id.None? {
        return Some("could not add column data");
      }
    }
    return None;
  }

  // ---- copySheetColumnsInTx ----

  /** The store after adding, for each column in order, its copy to `sheet` and then the copies
      of its cells, and the error that stopped the copy, if any. */
  function CopyColumns(d: Db, columns: seq<Column>, sheet: Uuid): (Db, Option<string>)
    decreases |columns|
  {
    if columns == [] then (d, None)
    else
      var c := columns[0];
      var (d1, id) := d.NewColumn(sheet, c.name, c.kind, c.required, Some(c.id));
      if id.None? then (d1, Some("could not add column"))
      else
        var (d2, e) := if |c.data| > 0 then CopyCells(d1, c.data, id.value) else (d1, None);
        if e.Some? then (d2, Some("could not copy data for column " + c.name + ": " + e.value))
        else CopyColumns(d2, columns[1..], sheet)
  }

  /** Copying columns leaves branches and sheets alone and only appends columns and cells;
      when it succeeds it appends one copy per column, in order, and as many cells as the
      columns carry. */
  lemma CopyColumnsAppends(d: Db, columns: seq<Column>, sheet: Uuid)
    ensures var (d', e) := CopyColumns(d, columns, sheet);
      d'.branches == d.branches && d'.sheets == d.sheets && d'.userTables == d.userTables
      && d.columns <= d'.columns && d.cells <= d'.cells
      && (e.None? ==>
            |d'.columns| == |d.columns| + |columns| && |d'.cells| == |d.cells| + CellTotal(columns)
            && forall i :: 0 <= i < |columns| ==> ColumnCopies(d'.columns[|d.columns| + i], columns[i], sheet))
  {
    CopyColumnsKeeps(d, columns, sheet);
    CopyColumnsCopies(d, columns, sheet);
  }

  /** Copying columns leaves branches and sheets alone and only appends columns and cells. */
  lemma {:induction false} CopyColumnsKeeps(d: Db, columns: seq<Column>, sheet: Uuid)
    ensures var (d', e) := CopyColumns(d, columns, sheet);
      d'.branches == d.branches && d'.sheets == d.sheets && d'.userTables == d.userTables
      && d.columns <= d'.columns && d.cells <= d'.cells
    decreases |columns|
  {
    if columns != [] {
      var c := columns[0];
      var (d1, id) := d.NewColumn(sheet, c.name, c.kind, c.required, Some(c.id));
      if id.Some? {
        var (d2, e) := if |c.data| > 0 then CopyCells(d1, c.data, id.value) else (d1, None);
        CopyCellsAppends(d1, c.data, id.value);
        assert d1.columns == d.columns + [d1.columns[|d.columns|]];
        assert d.cells <= d2.cells by {
          assert d2.cells[..|d.cells|] == d1.cells[..|d.cells|];
        }
        if e.None? {
          CopyColumnsKeeps(d2, columns[1..], sheet);
          var (d', e') := CopyColumns(d2, columns[1..], sheet);
          assert d.columns <= d'.columns by {
            assert d'.columns[..|d.columns|] == d2.columns[..|d.columns|];
          }
          assert d.cells <= d'.cells by {
            assert d'.cells[..|d.cells|] == d2.cells[..|d.cells|];
          }
        }
      }
    }
  }

  /** A copy of columns that succeeds appends one copy per column, in order, and as many
      cells as the columns carry. */
  lemma {:induction false} CopyColumnsCopies(d: Db, columns: seq<Column>, sheet: Uuid)
    ensures var (d', e) := CopyColumns(d, columns, sheet);
      e.None? ==>
        |d'.columns| == |d.columns| + |columns| && |d'.cells| == |d.cells| + CellTotal(columns)
        && forall i :: 0 <= i < |columns| ==> ColumnCopies(d'.columns[|d.columns| + i], columns[i], sheet)
    decreases |columns|
  {
    if columns != [] {
      var c := columns[0];
      var (d1, id) := d.NewColumn(sheet, c.name, c.kind, c.required, Some(c.id));
      if id.Some? {
        var (d2, e) := if |c.data| > 0 then CopyCells(d1, c.data, id.value) else (d1, None);
        CopyCellsAppends(d1, c.data, id.value);
        if e.None? {
          assert |d2.cells| == |d.cells| + |c.data|;
          CopyColumnsCopies(d2, columns[1..], sheet);
          CopyColumnsKeeps(d2, columns[1..], sheet);
          var (d', e') := CopyColumns(d2, columns[1..], sheet);
          if e'.None? {
            forall i | 0 <= i < |columns|
              ensures ColumnCopies(d'.columns[|d.columns| + i], columns[i], sheet)
            {
              if i > 0 {
                assert columns[i] == columns[1..][i - 1];
              } else {
                assert d'.columns[|d.columns|] == d2.columns[|d.columns|];
              }
            }
          }
        }
      }
    }
  }


  /** The loop of `copySheetColumnsInTx` over the columns of the source sheet. */
  method CopyColumnsLoop(db: Database, columns: seq<Column>, targetSheetId: Uuid) returns (err: Option<string>)
    modifies db
    ensures (db.Snapshot(), err) == CopyColumns(old(db.Snapshot()), columns, targetSheetId)
  {
    for e := 0 to |columns|
      invariant CopyColumns(old(db.Snapshot()), columns, targetSheetId) == CopyColumns(db.Snapshot(), columns[e..], targetSheetId)
    {
      assert columns[e..][0] == columns[e] && columns[e..][1..] == columns[e + 1..];
      var c := columns[e];
      var newColumn := db.AddColumn(targetSheetId, c.name, c.kind, c.required, Some(c.id));
      if newColumn.None? {
        return Some("could not add column");
      }
      if |c.data| > 0 {
        var dataErr := CopyColumnDataBatchInTx(db, c.data, newColumn.value);
        if dataErr.Some? {
          return Some("could not copy data for column " + c.name + ": " + dataErr.value);
        }
      }
    }
    return None;
  }

  /** `copySheetColumnsInTx`: reads the source sheet's columns, assembled as
      `GetColumnsWithTx` assembles them, and copies each into the target sheet. */
  method CopySheetColumnsInTx(db: Database, sourceSheetId: Uuid, targetSheetId: Uuid) returns (err: Option<string>)
    modifies db
    ensures (db.Snapshot(), err) ==
      CopyColumns(old(db.Snapshot()), Group(old(db.Snapshot()).GetColumnsWithDataBySheet(sourceSheetId)), targetSheetId)
  {
    var columns := GetColumns(db.Snapshot().GetColumnsWithDataBySheet(sourceSheetId));
    err := CopyColumnsLoop(db, columns, targetSheetId);
  }

  // ---- copyBranchSheetsInTx ----

  /** The body of the loop for one source sheet: its copy in `target`, then the columns the
      store holds for the source sheet at that moment copied into it. */
  function CopySheet(d: Db, s: SheetRecord, target: Uuid): (Db, Option<string>)
  {
    var (d1, id) := d.NewSheet(target, s.name, s.kind, Some(s.id));
    if id.None? then (d1, Some("could not create sheet"))
    else
      var (d2, e) := CopyColumns(d1, Group(d1.GetColumnsWithDataBySheet(s.id)), id.value);
      if e.Some? then (d2, Some("could not copy columns for sheet " + s.name + ": " + e.value))
      else (d2, None)
  }

  /** Copying one sheet appends its copy as the only new sheet and leaves branches alone. */
  lemma CopySheetAppends(d: Db, s: SheetRecord, target: Uuid)
    ensures var (d', e) := CopySheet(d, s, target);
      d'.branches == d.branches && d'.userTables == d.userTables && d.sheets <= d'.sheets
      && (e.None? ==>
            |d'.sheets| == |d.sheets| + 1 && SheetCopies(d'.sheets[|d.sheets|], s, target))
  {
    var (d1, id) := d.NewSheet(target, s.name, s.kind, Some(s.id));
    if id.Some? {
      var columns := Group(d1.GetColumnsWithDataBySheet(s.id));
      CopyColumnsAppends(d1, columns, id.value);
      assert d1.sheets == d.sheets + [d1.sheets[|d.sheets|]];
    }
  }

  /** The store after copying each sheet in order, and the error that stopped the copy, if
      any. */
  function CopySheets(d: Db, sheets: seq<SheetRecord>, target: Uuid): (Db, Option<string>)
    decreases |sheets|
  {
    if sheets == [] then (d, None)
    else
      var (d1, e) := CopySheet(d, sheets[0], target);
      if e.Some? then (d1, e) else CopySheets(d1, sheets[1..], target)
  }

  /** Copying sheets leaves the branches alone and only appends sheets; when it succeeds it
      appends one copy per source sheet, in order. */
  lemma CopySheetsAppends(d: Db, sheets: seq<SheetRecord>, target: Uuid)
    ensures var (d', e) := CopySheets(d, sheets, target);
      d'.branches == d.branches && d'.userTables == d.userTables && d.sheets <= d'.sheets
      && (e.None? ==>
            |d'.sheets| == |d.sheets| + |sheets|
            && forall i :: 0 <= i < |sheets| ==> SheetCopies(d'.sheets[|d.sheets| + i], sheets[i], target))
  {
    CopySheetsKeeps(d, sheets, target);
    CopySheetsCopies(d, sheets, target);
  }

  /** Copying sheets leaves the branches alone and only appends sheets. */
  lemma {:induction false} CopySheetsKeeps(d: Db, sheets: seq<SheetRecord>, target: Uuid)
    ensures var (d', e) := CopySheets(d, sheets, target);
      d'.branches == d.branches && d'.userTables == d.userTables && d.sheets <= d'.sheets
    decreases |sheets|
  {
    if sheets != [] {
      CopySheetAppends(d, sheets[0], target);
      var (d1, e) := CopySheet(d, sheets[0], target);
      if e.None? {
        CopySheetsKeeps(d1, sheets[1..], target);
        var (d', e') := CopySheets(d1, sheets[1..], target);
        assert d.sheets <= d'.sheets by {
          assert d'.sheets[..|d.sheets|] == d1.sheets[..|d.sheets|];
        }
      }
    }
  }

  /** A copy of sheets that succeeds appends one copy per source sheet, in order. */
  lemma {:induction false} CopySheetsCopies(d: Db, sheets: seq<SheetRecord>, target: Uuid)
    ensures var (d', e) := CopySheets(d, sheets, target);
      e.None? ==>
        |d'.sheets| == |d.sheets| + |sheets|
        && forall i :: 0 <= i < |sheets| ==> SheetCopies(d'.sheets[|d.sheets| + i], sheets[i], target)
    decreases |sheets|
  {
    if sheets != [] {
      CopySheetAppends(d, sheets[0], target);
      var (d1, e) := CopySheet(d, sheets[0], target);
      if e.None? {
        CopySheetsCopies(d1, sheets[1..], target);
        CopySheetsKeeps(d1, sheets[1..], target);
        var (d', e') := CopySheets(d1, sheets[1..], target);
        if e'.None? {
          forall i | 0 <= i < |sheets|
            ensures SheetCopies(d'.sheets[|d.sheets| + i], sheets[i], target)
          {
            if i > 0 {
              assert sheets[i] == sheets[1..][i - 1];
            } else {
              assert d'.sheets[|d.sheets|] == d1.sheets[|d.sheets|];
            }
          }
        }
      }
    }
  }

  /** `copyBranchSheetsInTx`: copies every sheet of the source branch, in order. */
  method CopyBranchSheetsInTx(db: Database, sourceBranchId: Uuid, targetBranchId: Uuid) returns (err: Option<string>)
    modifies db
    ensures (db.Snapshot(), err) ==
      CopySheets(old(db.Snapshot()), old(db.Snapshot()).GetSheetsFromBranch(sourceBranchId), targetBranchId)
  {
    var sheets := db.Snapshot().GetSheetsFromBranch(sourceBranchId);
    for i := 0 to |sheets|
      invariant CopySheets(old(db.Snapshot()), sheets, targetBranchId) == CopySheets(db.Snapshot(), sheets[i..], targetBranchId)
    {
      assert sheets[i..][0] == sheets[i] && sheets[i..][1..] == sheets[i + 1..];
      var s := sheets[i];
      var sheet := db.CreateSheet(targetBranchId, s.name, s.kind, Some(s.id));
      if sheet.None? {
        return Some("could not create sheet");
      }
      var columnsErr := CopySheetColumnsInTx(db, s.id, sheet.value);
      if columnsErr.Some? {
        return Some("could not copy columns for sheet " + s.name + ": " + columnsErr.value);
      }
    }
    return None;
  }

  // ---- copyBranchSheetsWithTransaction ----

  /** The store after the copy transaction, and its error: the transaction begins, the sheets
      are copied, and it commits; when the copy or the commit fails, the records go back to
      those before the transaction. */
  function CopyBranch(d: Db, source: Uuid, target: Uuid): (Db, Option<string>)
  {
    var (d1, begun) := d.Call();
    if !begun then (d1, Some("could not begin transaction"))
    else
      var (d2, e) := CopySheets(d1, d1.GetSheetsFromBranch(source), target);
      if e.Some? then (d2.RolledBackTo(d), e)
      else
        var (d3, committed) := d2.Call();
        if !committed then (d3.RolledBackTo(d), Some("could not commit transaction"))
        else (d3, None)
  }

  /** The records the copy may touch are those of `d` again. */
  predicate SameRecords(d: Db, e: Db)
  {
    d.branches == e.branches && d.sheets == e.sheets && d.columns == e.columns && d.cells == e.cells
  }

  /** The copy is all or nothing: when it fails the records are those before it; when it
      succeeds the target has one copy of each sheet of the source, in order, after the
      sheets that were there. Branches and permissions never change. */
  lemma CopyBranchAllOrNothing(d: Db, source: Uuid, target: Uuid)
    ensures var (d', e) := CopyBranch(d, source, target);
      var sheets := d.GetSheetsFromBranch(source);
      d'.branches == d.branches && d'.userTables == d.userTables
      && (e.Some? ==> SameRecords(d', d))
      && (e.None? ==>
            d.sheets <= d'.sheets && |d'.sheets| == |d.sheets| + |sheets|
            && forall i :: 0 <= i < |sheets| ==> SheetCopies(d'.sheets[|d.sheets| + i], sheets[i], target))
  {
    var (d1, begun) := d.Call();
    if begun {
      var sheets := d.GetSheetsFromBranch(source);
      assert d1.sheets == d.sheets;
      assert d1.GetSheetsFromBranch(source) == sheets;
      CopySheetsAppends(d1, sheets, target);
      var (d2, e) := CopySheets(d1, sheets, target);
      if e.None? {
        var (d3, committed) := d2.Call();
        assert d3.sheets == d2.sheets;
        if committed {
          assert CopyBranch(d, source, target) == (d3, None);
          forall i | 0 <= i < |sheets|
            ensures SheetCopies(d3.sheets[|d.sheets| + i], sheets[i], target)
          {
            assert d3.sheets[|d.sheets| + i] == d2.sheets[|d1.sheets| + i];
          }
        }
      }
    }
  }

  /** `copyBranchSheetsWithTransaction`. */
  method CopyBranchSheetsWithTransaction(db: Database, sourceBranchId: Uuid, targetBranchId: Uuid) returns (err: Option<string>)
    modifies db
    ensures (db.Snapshot(), err) == CopyBranch(old(db.Snapshot()), sourceBranchId, targetBranchId)
  {
    var saved := db.Snapshot();
    var begun := db.Call();
    if !begun {
      return Some("could not begin transaction");
    }
    err := CopyBranchSheetsInTx(db, sourceBranchId, targetBranchId);
    if err.Some? {
      db.Rollback(saved);
      return;
    }
    var committed := db.Call();
    if !committed {
      err := Some("could not commit transaction");
      db.Rollback(saved);
    }
  }

  // ---- createBranchHandler ----

  /** The store after creating the branch and copying the oldest branch of its table into
      it, and the new branch's id or the error answered with status 500. */
  function Prepare(d: Db, table: Uuid, name: string, isProtected: bool): (Db, Result<Uuid, string>)
  {
    var (d1, id) := d.NewBranch(table, name, isProtected);
    if id.None? then (d1, Failure("Could not create branch"))
    else
      match d1.GetOldestBranchFromTable(table)
      case None => (d1, Success(id.value))
      case Some(oldest) =>
        if oldest.id == id.value then (d1, Success(id.value))
        else
          var (d2, e) := CopyBranch(d1, oldest.id, id.value);
          if e.Some? then (d2, Failure("Could not copy sheets to new branch: " + e.value))
          else (d2, Success(id.value))
  }

  /** Once the branch is created its table has an oldest branch, so the path for a table
      without branches is never taken. A new branch is a copy of the oldest branch unless it is
      that branch itself; then it starts with no sheets. */
  lemma CreateCopiesOldest(d: Db, table: Uuid, name: string, isProtected: bool)
    requires Prepare(d, table, name, isProtected).1.Success?
    ensures var (d', r) := Prepare(d, table, name, isProtected);
      var d1 := d.NewBranch(table, name, isProtected).0;
      var oldest := d1.GetOldestBranchFromTable(table);
      oldest.Some?
      && d'.branches == d.branches + [BranchRecord(r.value, table, name, isProtected, d.clock)]
      && (oldest.value.id == r.value ==> d'.sheets == d.sheets)
      && (oldest.value.id != r.value ==>
            var sheets := d.GetSheetsFromBranch(oldest.value.id);
            d.sheets <= d'.sheets && |d'.sheets| == |d.sheets| + |sheets|
            && forall i :: 0 <= i < |sheets| ==> SheetCopies(d'.sheets[|d.sheets| + i], sheets[i], r.value))
  {
    var (d1, id) := d.NewBranch(table, name, isProtected);
    var created := BranchRecord(id.value, table, name, isProtected, d.clock);
    assert created in d1.branches;
    assert created in d1.GetBranchesFromTable(table);
    var oldest := d1.GetOldestBranchFromTable(table);
    assert d1.sheets == d.sheets;
    if oldest.value.id != id.value {
      var sheets := d.GetSheetsFromBranch(oldest.value.id);
      assert d1.GetSheetsFromBranch(oldest.value.id) == sheets;
      CopyBranchAllOrNothing(d1, oldest.value.id, id.value);
      var (d2, e) := CopyBranch(d1, oldest.value.id, id.value);
      assert Prepare(d, table, name, isProtected) == (d2, Success(id.value));
      assert d2.branches == d1.branches;
    } else {
      assert Prepare(d, table, name, isProtected) == (d1, Success(id.value));
    }
  }

  datatype BranchData = BranchData(branch: BranchView, sheet: Sheet)

  /** `createBranchHandler`, after the request is decoded; `tableId` is `None` when the
      table id does not parse. */
  method CreateBranchHandler(db: Database, user: Uuid, name: string, isProtected: bool, tableId: Option<Uuid>)
    returns (r: Response<BranchData>)
    modifies db
    ensures tableId.None? ==> r == RespondError(400, "Could not parse the table id") && db.Snapshot() == old(db.Snapshot())
    ensures tableId.Some? ==>
      var (d1, created) := Prepare(old(db.Snapshot()), tableId.value, name, isProtected);
      (created.Failure? ==> r == RespondError(500, created.error) && db.Snapshot() == d1)
      && (created.Success? ==> Switched(d1, created.value, 201, db.Snapshot(), r))
  {
    if tableId.None? {
      return RespondError(400, "Could not parse the table id");
    }
    var table := tableId.value;
    var id := db.CreateBranch(table, name, isProtected);
    if id.None? {
      return RespondError(500, "Could not create branch");
    }
    var oldest := db.Snapshot().GetOldestBranchFromTable(table);
    if oldest.Some? && oldest.value.id != id.value {
      var err := CopyBranchSheetsWithTransaction(db, oldest.value.id, id.value);
      if err.Some? {
        return RespondError(500, "Could not copy sheets to new branch: " + err.value);
      }
    }
    r := SwitchBranch(db, id.value, user, 201);
  }

  // ---- switchBranch ----

  /** The store after choosing the sheet to open on `branch`, and that sheet's id: the first
      sheet of the branch, or, when it has none, a new map sheet named "config" whose default
      columns are written by one more call. */
  function OpenSheet(d: Db, branch: Uuid): (Db, Result<Uuid, string>)
  {
    if d.GetBranch(branch).None? then (d, Failure("Could not get branch: Could not get table with given id"))
    else
      var sheets := d.GetSheetsFromBranch(branch);
      if sheets != [] then (d, Success(sheets[0].id))
      else
        var (d1, id) := d.NewSheet(branch, "config", "map", None);
        if id.None? then (d1, Failure("Could not create map sheet"))
        else
          var (d2, ok) := d1.Call();
          if !ok then (d2, Failure("Could not create map sheet")) else (d2, Success(id.value))
  }

  /** The sheet opened is the branch's first sheet when it has one, the store unchanged;
      otherwise it is a new "config" map sheet of the branch, the only sheet added. */
  lemma OpenSheetChoice(d: Db, branch: Uuid)
    requires OpenSheet(d, branch).1.Success?
    ensures var (d', r) := OpenSheet(d, branch);
      var sheets := d.GetSheetsFromBranch(branch);
      d.GetBranch(branch).Some?
      && (sheets != [] ==> d' == d && r.value == sheets[0].id && sheets[0] in d.sheets && sheets[0].branchId == branch)
      && (sheets == [] ==>
            d'.sheets == d.sheets + [SheetRecord(r.value, branch, "config", "map", 0, None, d.clock)]
            && d'.branches == d.branches && d'.columns == d.columns && d'.cells == d.cells)
  {
    var sheets := d.GetSheetsFromBranch(branch);
    if sheets != [] {
      assert sheets[0] in sheets;
    }
  }

  /** `r` and `after` are what `switchBranch` answers and leaves when it runs on `d`. */
  predicate Switched(d: Db, branch: Uuid, code: int, after: Db, r: Response<BranchData>)
  {
    var (d1, choice) := OpenSheet(d, branch);
    (choice.Failure? ==> r == RespondError(500, choice.error) && after == d1)
    && (choice.Success? ==>
          d.GetBranch(branch).Some?
          && Answered(d1, BranchView(branch, d.GetBranch(branch).value.name, d.GetBranch(branch).value.isProtected),
                      choice.value, code, after, r))
  }

  /** `r` and `after` are what the end of `switchBranch` answers and leaves once the sheet
      `sheetId` is chosen: the sheet as `GetSheet` shows it, recorded as the user's opened
      sheet by one more call. */
  predicate Answered(d: Db, view: BranchView, sheetId: Uuid, code: int, after: Db, r: Response<BranchData>)
  {
    var found := d.GetSheet(sheetId);
    if found.None? then
      r == RespondError(500, "Could not get sheet: " + "Could not get sheet with given id") && after == d
    else if d.GetBranch(found.value.branchId).None? then
      r == RespondError(500, "Could not get sheet: " + "Could not get branch with given id") && after == d
    else
      var (d2, ok) := d.Call();
      after == d2
      && if ok then r.Respond? && r.code == code && r.body.branch == view && Describes(d, found.value, r.body.sheet)
         else r == RespondError(500, "Could not set opened sheet")
  }

  /** The first half of `switchBranch`: the branch must exist, and the sheet to open is
      chosen, created when the branch has none. */
  method ChooseSheet(db: Database, branchId: Uuid) returns (sheetId: Result<Uuid, string>)
    modifies db
    ensures (db.Snapshot(), sheetId) == OpenSheet(old(db.Snapshot()), branchId)
  {
    var d := db.Snapshot();
    if d.GetBranch(branchId).None? {
      return Failure("Could not get branch: Could not get table with given id");
    }
    var sheets := d.GetSheetsFromBranch(branchId);
    if sheets == [] {
      var created := db.CreateSheet(branchId, "config", "map", None);
      if created.None? {
        return Failure("Could not create map sheet");
      }
      var ok := db.Call();
      if !ok {
        return Failure("Could not create map sheet");
      }
      sheetId := Success(created.value);
    } else {
      sheetId := Success(sheets[0].id);
    }
  }

  /** The second half of `switchBranch`. */
  method Answer(db: Database, view: BranchView, sheetId: Uuid, code: int) returns (r: Response<BranchData>)
    modifies db
    ensures Answered(old(db.Snapshot()), view, sheetId, code, db.Snapshot(), r)
  {
    var sheet := GetSheet(db.Snapshot(), Some(sheetId));
    if sheet.Failure? {
      return RespondError(500, "Could not get sheet: " + sheet.error);
    }
    var ok := db.Call();
    if !ok {
      return RespondError(500, "Could not set opened sheet");
    }
    r := Respond(code, BranchData(view, sheet.value));
  }

  /** `switchBranch`: answers with the branch and the sheet opened on it, which is recorded
      as the user's opened sheet. */
  method SwitchBranch(db: Database, branchId: Uuid, user: Uuid, code: int) returns (r: Response<BranchData>)
    modifies db
    ensures Switched(old(db.Snapshot()), branchId, code, db.Snapshot(), r)
  {
    var d := db.Snapshot();
    var sheetId := ChooseSheet(db, branchId);
    if sheetId.Failure? {
      return RespondError(500, sheetId.error);
    }
    var branch := d.GetBranch(branchId).value;
    r := Answer(db, BranchView(branchId, branch.name, branch.isProtected), sheetId.value, code);
  }
}

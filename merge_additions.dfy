/** What a merge adds to the target branch after `executeMerge` (backend/merge_execute.go):
    the sheets and the columns the source branch made itself, then the cells of those new
    columns; and the unused check that a source branch descends from its target. */
module MergeAdditions {
  import opened Wrappers
  import opened Store
  import opened MergePreview
  import opened MergePlan
  import opened MergeExecute

  /** The keys the rows have under `key`. */
  function KeySet<K>(rows: seq<MergeRow>, key: MergeRow -> Option<K>): set<K>
  {
    set r | r in rows && key(r).Some? :: key(r).value
  }

  /** A loop filling a Go map row by row. */
  method BuildIndex<K>(rows: seq<MergeRow>, key: MergeRow -> Option<K>) returns (m: map<K, MergeRow>)
    ensures m == Index(rows, key)
  {
    m := map[];
    for i := 0 to |rows|
      invariant m == Index(rows[..i], key)
    {
      assert rows[..i + 1][..i] == rows[..i];
      var k := key(rows[i]);
      if k.Some? {
        m := m[k.value := rows[i]];
      }
    }
    assert rows[..|rows|] == rows;
  }

  /** A loop filling a Go `map[...]bool` row by row. */
  method BuildKeySet<K>(rows: seq<MergeRow>, key: MergeRow -> Option<K>) returns (s: set<K>)
    ensures s == KeySet(rows, key)
  {
    s := {};
    for i := 0 to |rows|
      invariant s == KeySet(rows[..i], key)
    {
      var r := rows[i];
      assert forall x :: x in rows[..i + 1] <==> x in rows[..i] || x == r;
      if key(r).Some? {
        s := s + {key(r).value};
      }
    }
    assert rows[..|rows|] == rows;
  }

  // ---- createNewSheets ----

  /** A row of a sheet the source branch made itself, keyed by that sheet. */
  function NewSheetKey(r: MergeRow): Option<Uuid>
  {
    if r.sourceSheetId.None? then Some(r.sheetId) else None
  }

  function OwnSheetKey(r: MergeRow): Option<Uuid> { Some(r.sheetId) }

  /** For one sheet of the source map: a copy of it in the target branch, remembering the
      source sheet as its lineage, unless a target sheet has its id. */
  function SheetStep(sourceSheets: map<Uuid, MergeRow>, targetSheets: set<Uuid>, branch: Uuid): Uuid -> seq<Step>
  {
    k =>
      if k in sourceSheets && k !in targetSheets then
        var row := sourceSheets[k];
        [Do(CreateSheet(branch, row.sheetName, row.sheetType, Some(k)), WriteFailed("failed to create sheet " + row.sheetName))]
      else []
  }

  /** What `createNewSheets` writes when it visits the source sheets in `order`. */
  function SheetPlan(order: seq<Uuid>, sourceData: seq<MergeRow>, targetData: seq<MergeRow>, branch: Uuid): seq<Step>
  {
    PlanOf(order, SheetStep(Index(sourceData, NewSheetKey), KeySet(targetData, OwnSheetKey), branch))
  }

  /** The sheets the source made itself whose id no target sheet has. */
  function NewSheetIds(sourceData: seq<MergeRow>, targetData: seq<MergeRow>): set<Uuid>
  {
    set r | r in sourceData && r.sourceSheetId.None? && r.sheetId !in KeySet(targetData, OwnSheetKey) :: r.sheetId
  }

  /** The lineage a created sheet or column records; `None` for every other step. */
  function SheetSource(s: Step): Option<Uuid>
  {
    if s.Do? && s.write.CreateSheet? then s.write.source else None
  }

  /** `createNewSheets`. */
  method CreateNewSheets(db: Database, sourceData: seq<MergeRow>, targetData: seq<MergeRow>, branch: Uuid)
    returns (err: Option<MergeError>, ghost order: seq<Uuid>)
    modifies db
    ensures IsEnumeration(order, Index(sourceData, NewSheetKey).Keys)
    ensures (db.Snapshot(), err) == Run(old(db.Snapshot()), SheetPlan(order, sourceData, targetData, branch))
  {
    var sourceSheets := BuildIndex(sourceData, NewSheetKey);
    var targetSheets := BuildKeySet(targetData, OwnSheetKey);
    err, order := RunEach(db, sourceSheets.Keys, SheetStep(sourceSheets, targetSheets, branch));
  }

  /** Whatever order the map gives, `createNewSheets` creates in the target branch exactly one
      sheet per new source sheet, named and typed as a source row of that sheet and recording
      it as lineage, and nothing else. */
  lemma NewSheetsCreated(order: seq<Uuid>, sourceData: seq<MergeRow>, targetData: seq<MergeRow>, branch: Uuid)
    requires IsEnumeration(order, Index(sourceData, NewSheetKey).Keys)
    ensures var plan := SheetPlan(order, sourceData, targetData, branch);
      && (forall s :: s in plan ==>
            s.Do? && s.write.CreateSheet? && s.write.branchId == branch && s.write.source.Some?
            && s.write.source.value in NewSheetIds(sourceData, targetData)
            && exists r :: r in sourceData && r.sourceSheetId.None? && r.sheetId == s.write.source.value
                           && s.write.name == r.sheetName && s.write.kind == r.sheetType)
      && (forall k :: k in NewSheetIds(sourceData, targetData) ==>
            exists s :: s in plan && SheetSource(s) == Some(k))
      && DistinctTags(plan, SheetSource)
  {
    NewSheetsWellMade(order, sourceData, targetData, branch);
    NewSheetsCover(order, sourceData, targetData, branch);
    PlanOfDistinct(order, SheetStep(Index(sourceData, NewSheetKey), KeySet(targetData, OwnSheetKey), branch), SheetSource);
  }

  /** Every step of the sheet plan creates a new source sheet in the target branch, named and
      typed as a source row of that sheet. */
  lemma NewSheetsWellMade(order: seq<Uuid>, sourceData: seq<MergeRow>, targetData: seq<MergeRow>, branch: Uuid)
    requires IsEnumeration(order, Index(sourceData, NewSheetKey).Keys)
    ensures forall s :: s in SheetPlan(order, sourceData, targetData, branch) ==>
      s.Do? && s.write.CreateSheet? && s.write.branchId == branch && s.write.source.Some?
      && s.write.source.value in NewSheetIds(sourceData, targetData)
      && exists r :: r in sourceData && r.sourceSheetId.None? && r.sheetId == s.write.source.value
                     && s.write.name == r.sheetName && s.write.kind == r.sheetType
  {
    var src := Index(sourceData, NewSheetKey);
    var f := SheetStep(src, KeySet(targetData, OwnSheetKey), branch);
    forall s | s in SheetPlan(order, sourceData, targetData, branch)
      ensures s.Do? && s.write.CreateSheet? && s.write.branchId == branch && s.write.source.Some?
      ensures s.write.source.value in NewSheetIds(sourceData, targetData)
      ensures exists r :: r in sourceData && r.sourceSheetId.None? && r.sheetId == s.write.source.value
                          && s.write.name == r.sheetName && s.write.kind == r.sheetType
    {
      PlanOfMembers(order, f, s);
      var k :| k in order && s in f(k);
      IndexLastWins(sourceData, NewSheetKey, k);
    }
  }

  /** Every new source sheet has a step of the sheet plan that creates it. */
  lemma NewSheetsCover(order: seq<Uuid>, sourceData: seq<MergeRow>, targetData: seq<MergeRow>, branch: Uuid)
    requires IsEnumeration(order, Index(sourceData, NewSheetKey).Keys)
    ensures forall k :: k in NewSheetIds(sourceData, targetData) ==>
      exists s :: s in SheetPlan(order, sourceData, targetData, branch) && SheetSource(s) == Some(k)
  {
    var src := Index(sourceData, NewSheetKey);
    var f := SheetStep(src, KeySet(targetData, OwnSheetKey), branch);
    forall k | k in NewSheetIds(sourceData, targetData)
      ensures exists s :: s in SheetPlan(order, sourceData, targetData, branch) && SheetSource(s) == Some(k)
    {
      var r :| r in sourceData && r.sourceSheetId.None? && r.sheetId == k && k !in KeySet(targetData, OwnSheetKey);
      var i :| 0 <= i < |sourceData| && sourceData[i] == r;
      assert NewSheetKey(sourceData[i]) == Some(k);
      IndexLastWins(sourceData, NewSheetKey, k);
      assert k in src && k in order;
      var s := f(k)[0];
      assert SheetSource(s) == Some(k);
      PlanOfMembers(order, f, s);
      assert s in SheetPlan(order, sourceData, targetData, branch);
    }
  }

  // ---- createNewColumns ----

  /** A row of a column the source branch made itself, keyed by that column. */
  function NewColumnKey(r: MergeRow): Option<Uuid>
  {
    if r.columnId.Some? && r.sourceColumnId.None? then r.columnId else None
  }

  function OwnColumnKey(r: MergeRow): Option<Uuid> { r.columnId }

  /** The target sheet a sheet key stands for: the sheet of the last target row with that
      lineage key. */
  function SheetsByKey(rows: seq<MergeRow>): (m: map<Uuid, Uuid>)
    ensures forall k :: k in m <==> exists r :: r in rows && SheetKey(r) == k
    ensures forall k :: k in m ==> exists r :: r in rows && SheetKey(r) == k && r.sheetId == m[k]
  {
    if rows == [] then map[]
    else
      var init := rows[..|rows| - 1];
      var last := rows[|rows| - 1];
      assert forall r :: r in rows <==> r in init || r == last;
      SheetsByKey(init)[SheetKey(last) := last.sheetId]
  }

  /** The loop building `targetSheetMap`. */
  method BuildSheetsByKey(rows: seq<MergeRow>) returns (m: map<Uuid, Uuid>)
    ensures m == SheetsByKey(rows)
  {
    m := map[];
    for i := 0 to |rows|
      invariant m == SheetsByKey(rows[..i])
    {
      assert rows[..i + 1][..i] == rows[..i];
      m := m[SheetKey(rows[i]) := rows[i].sheetId];
    }
    assert rows[..|rows|] == rows;
  }

  /** For one column of the source map: a copy of it in the target sheet its sheet key
      stands for, remembering the source column as its lineage, unless a target column has
      its id or no target sheet matches. Missing name, type and required flag are the Go zero
      values. */
  function ColumnStep(sourceColumns: map<Uuid, MergeRow>, targetColumns: set<Uuid>, sheetMap: map<Uuid, Uuid>): Uuid -> seq<Step>
  {
    k =>
      if k in sourceColumns && k !in targetColumns && SheetKey(sourceColumns[k]) in sheetMap then
        var row := sourceColumns[k];
        var name := row.columnName.GetOr("");
        [Do(AddColumn(sheetMap[SheetKey(row)], name, row.columnType.GetOr(""), row.columnRequired.GetOr(false), Some(k)),
            WriteFailed("failed to create column " + name))]
      else []
  }

  /** What `createNewColumns` writes when it visits the source columns in `order`. */
  function ColumnPlan(order: seq<Uuid>, sourceData: seq<MergeRow>, targetData: seq<MergeRow>): seq<Step>
  {
    PlanOf(order, ColumnStep(Index(sourceData, NewColumnKey), KeySet(targetData, OwnColumnKey), SheetsByKey(targetData)))
  }

  function ColumnSource(s: Step): Option<Uuid>
  {
    if s.Do? && s.write.AddColumn? then s.write.source else None
  }

  /** `createNewColumns`. */
  method CreateNewColumns(db: Database, sourceData: seq<MergeRow>, targetData: seq<MergeRow>)
    returns (err: Option<MergeError>, ghost order: seq<Uuid>)
    modifies db
    ensures IsEnumeration(order, Index(sourceData, NewColumnKey).Keys)
    ensures (db.Snapshot(), err) == Run(old(db.Snapshot()), ColumnPlan(order, sourceData, targetData))
  {
    var sourceColumns := BuildIndex(sourceData, NewColumnKey);
    var targetColumns := BuildKeySet(targetData, OwnColumnKey);
    var targetSheetMap := BuildSheetsByKey(targetData);
    err, order := RunEach(db, sourceColumns.Keys, ColumnStep(sourceColumns, targetColumns, targetSheetMap));
  }

  /** `s` adds a copy of a column the source made itself, which no target column has as its
      id, into a target sheet whose lineage key is that column's sheet key, recording the
      source column as lineage. */
  predicate AddsNewColumn(s: Step, sourceData: seq<MergeRow>, targetData: seq<MergeRow>)
  {
    s.Do? && s.write.AddColumn? && s.write.source.Some?
    && s.write.source.value !in KeySet(targetData, OwnColumnKey)
    && exists r, tr :: r in sourceData && tr in targetData && r.columnId == s.write.source
                       && r.sourceColumnId.None? && SheetKey(tr) == SheetKey(r) && tr.sheetId == s.write.sheetId
  }

  lemma ColumnStepAdds(k: Uuid, sourceData: seq<MergeRow>, targetData: seq<MergeRow>)
    ensures forall s :: s in ColumnStep(Index(sourceData, NewColumnKey), KeySet(targetData, OwnColumnKey), SheetsByKey(targetData))(k) ==>
      AddsNewColumn(s, sourceData, targetData) && ColumnSource(s) == Some(k)
  {
    IndexLastWins(sourceData, NewColumnKey, k);
  }

  /** `createNewColumns` only adds new columns, as `AddsNewColumn` says. */
  lemma NewColumnsOnly(order: seq<Uuid>, sourceData: seq<MergeRow>, targetData: seq<MergeRow>)
    ensures forall s :: s in ColumnPlan(order, sourceData, targetData) ==> AddsNewColumn(s, sourceData, targetData)
  {
    var f := ColumnStep(Index(sourceData, NewColumnKey), KeySet(targetData, OwnColumnKey), SheetsByKey(targetData));
    forall s | s in ColumnPlan(order, sourceData, targetData)
      ensures AddsNewColumn(s, sourceData, targetData)
    {
      PlanOfMembers(order, f, s);
      var k :| k in order && s in f(k);
      ColumnStepAdds(k, sourceData, targetData);
    }
  }

  /** Whatever order the map gives, every column the source made itself that no target
      column has as its id, and whose sheet key a target sheet has, is added. */
  lemma NewColumnsAll(order: seq<Uuid>, sourceData: seq<MergeRow>, targetData: seq<MergeRow>, k: Uuid)
    requires IsEnumeration(order, Index(sourceData, NewColumnKey).Keys)
    requires k in Index(sourceData, NewColumnKey) && k !in KeySet(targetData, OwnColumnKey)
    requires SheetKey(Index(sourceData, NewColumnKey)[k]) in SheetsByKey(targetData)
    ensures exists s :: s in ColumnPlan(order, sourceData, targetData) && ColumnSource(s) == Some(k)
  {
    var f := ColumnStep(Index(sourceData, NewColumnKey), KeySet(targetData, OwnColumnKey), SheetsByKey(targetData));
    ColumnStepAdds(k, sourceData, targetData);
    var s := f(k)[0];
    assert k in order && s in f(k);
    PlanOfMembers(order, f, s);
    assert s in ColumnPlan(order, sourceData, targetData);
  }

  /** Whatever order the map gives, no source column is added twice. */
  lemma NewColumnsOnce(order: seq<Uuid>, sourceData: seq<MergeRow>, targetData: seq<MergeRow>)
    requires IsEnumeration(order, Index(sourceData, NewColumnKey).Keys)
    ensures DistinctTags(ColumnPlan(order, sourceData, targetData), ColumnSource)
  {
    var f := ColumnStep(Index(sourceData, NewColumnKey), KeySet(targetData, OwnColumnKey), SheetsByKey(targetData));
    forall k | k in order
      ensures |f(k)| <= 1 && forall s :: s in f(k) ==> ColumnSource(s) == Some(k)
    {
      ColumnStepAdds(k, sourceData, targetData);
    }
    PlanOfDistinct(order, f, ColumnSource);
  }

  // ---- copyDataToNewColumns ----

  /** The target column each source column was copied to: a target column recording it as
      lineage, the last one in row order. */
  function ColumnsByLineage(rows: seq<MergeRow>): (m: map<Uuid, Uuid>)
    ensures forall k :: k in m <==> exists r :: r in rows && r.columnId.Some? && r.sourceColumnId == Some(k)
    ensures forall k :: k in m ==> exists r :: r in rows && r.sourceColumnId == Some(k) && r.columnId == Some(m[k])
  {
    if rows == [] then map[]
    else
      var init := rows[..|rows| - 1];
      var last := rows[|rows| - 1];
      assert forall r :: r in rows <==> r in init || r == last;
      var m := ColumnsByLineage(init);
      if last.columnId.Some? && last.sourceColumnId.Some? then m[last.sourceColumnId.value := last.columnId.value] else m
  }

  /** The loop building `newTargetColumns`. */
  method BuildColumnsByLineage(rows: seq<MergeRow>) returns (m: map<Uuid, Uuid>)
    ensures m == ColumnsByLineage(rows)
  {
    m := map[];
    for i := 0 to |rows|
      invariant m == ColumnsByLineage(rows[..i])
    {
      assert rows[..i + 1][..i] == rows[..i];
      var row := rows[i];
      if row.columnId.Some? && row.sourceColumnId.Some? {
        m := m[row.sourceColumnId.value := row.columnId.value];
      }
    }
    assert rows[..|rows|] == rows;
  }

  /** Some target row holds a cell of `column` at `idx`. */
  predicate HasDataAt(rows: seq<MergeRow>, column: Uuid, idx: int)
  {
    exists tr :: tr in rows && HasCell(tr) && tr.columnId.value == column && tr.dataIdx.GetOr(0) == idx
  }

  /** The duplicate check: a scan that stops at the first such cell. */
  method ScanForData(rows: seq<MergeRow>, column: Uuid, idx: int) returns (hasData: bool)
    ensures hasData == HasDataAt(rows, column, idx)
  {
    hasData := false;
    for i := 0 to |rows|
      invariant !hasData
      invariant forall k :: 0 <= k < i ==> !(HasCell(rows[k]) && rows[k].columnId.value == column && rows[k].dataIdx.GetOr(0) == idx)
    {
      var tr := rows[i];
      if HasCell(tr) && tr.columnId.value == column && tr.dataIdx.GetOr(0) == idx {
        return true;
      }
    }
  }

  /** For one source row: its cell, copied at its own index into the target column that
      records its column as lineage, unless that column already has a cell there. */
  function CopySteps(row: MergeRow, newColumns: map<Uuid, Uuid>, targetData: seq<MergeRow>): seq<Step>
  {
    if HasCell(row) && row.columnId.value in newColumns then
      var column := newColumns[row.columnId.value];
      var idx := row.dataIdx.GetOr(0);
      if HasDataAt(targetData, column, idx) then []
      else [Do(CreateColumnData(column, idx, row.dataValue, None), WriteFailed("failed to copy column data"))]
    else []
  }

  function CopyRows(rows: seq<MergeRow>, newColumns: map<Uuid, Uuid>, targetData: seq<MergeRow>): seq<Step>
  {
    if rows == [] then [] else CopySteps(rows[0], newColumns, targetData) + CopyRows(rows[1..], newColumns, targetData)
  }

  /** What `copyDataToNewColumns` writes, given the target rows it reads first. */
  function CopyPlan(sourceData: seq<MergeRow>, targetData: seq<MergeRow>): seq<Step>
  {
    CopyRows(sourceData, ColumnsByLineage(targetData), targetData)
  }

  /** `copyDataToNewColumns`: reads the target branch again, then copies. */
  method CopyDataToNewColumns(db: Database, sourceData: seq<MergeRow>, branch: Uuid) returns (err: Option<MergeError>)
    modifies db
    ensures (db.Snapshot(), err) == Run(old(db.Snapshot()), CopyPlan(sourceData, old(db.Snapshot()).GetBranchDataForMerge(branch)))
  {
    var targetData := db.Snapshot().GetBranchDataForMerge(branch);
    var newColumns := BuildColumnsByLineage(targetData);
    ghost var d0 := db.Snapshot();
    for i := 0 to |sourceData|
      invariant Run(d0, CopyPlan(sourceData, targetData)) == Run(db.Snapshot(), CopyRows(sourceData[i..], newColumns, targetData))
    {
      assert sourceData[i..][1..] == sourceData[i + 1..];
      var row := sourceData[i];
      RunAppend(db.Snapshot(), CopySteps(row, newColumns, targetData), CopyRows(sourceData[i + 1..], newColumns, targetData));
      if HasCell(row) && row.columnId.value in newColumns {
        var column := newColumns[row.columnId.value];
        var hasData := ScanForData(targetData, column, row.dataIdx.GetOr(0));
        if !hasData {
          err := PerformStep(db, Do(CreateColumnData(column, row.dataIdx.GetOr(0), row.dataValue, None), WriteFailed("failed to copy column data")));
          if err.Some? {
            return;
          }
        }
      }
    }
    err := None;
  }

  /** `s` copies the cell of source row `r`: at its index, with its value, into a target
      column recording the row's column as lineage, where that column had no cell. */
  predicate CopiedFrom(s: Step, r: MergeRow, targetData: seq<MergeRow>)
  {
    s.Do? && s.write.CreateColumnData? && HasCell(r)
    && s.write.idx == r.dataIdx.GetOr(0) && s.write.value == r.dataValue
    && !HasDataAt(targetData, s.write.columnId, s.write.idx)
    && exists tr :: tr in targetData && tr.sourceColumnId == r.columnId && tr.columnId == Some(s.write.columnId)
  }

  lemma CopyStepsFrom(row: MergeRow, targetData: seq<MergeRow>)
    ensures forall s :: s in CopySteps(row, ColumnsByLineage(targetData), targetData) ==> CopiedFrom(s, row, targetData)
  {
  }

  /** Every copied cell comes from a cell of the source rows, as `CopiedFrom` says. */
  lemma {:induction false} CopiedCells(rows: seq<MergeRow>, targetData: seq<MergeRow>)
    ensures forall s :: s in CopyRows(rows, ColumnsByLineage(targetData), targetData) ==>
      exists r :: r in rows && CopiedFrom(s, r, targetData)
  {
    if rows != [] {
      CopiedCells(rows[1..], targetData);
      CopyStepsFrom(rows[0], targetData);
      assert forall x :: x in rows[1..] ==> x in rows;
      assert rows[0] in rows;
    }
  }

  /** Every source cell whose column some target column records as lineage is copied, as
      `CopiedFrom` says, when the column it goes to has no cell at its index. */
  lemma {:induction false} CopiedCellsComplete(rows: seq<MergeRow>, targetData: seq<MergeRow>, r: MergeRow)
    requires r in rows && HasCell(r)
    requires exists tr :: tr in targetData && tr.columnId.Some? && tr.sourceColumnId == r.columnId
    requires !HasDataAt(targetData, ColumnsByLineage(targetData)[r.columnId.value], r.dataIdx.GetOr(0))
    ensures exists s :: s in CopyRows(rows, ColumnsByLineage(targetData), targetData) && CopiedFrom(s, r, targetData)
  {
    var newColumns := ColumnsByLineage(targetData);
    var rest := CopyRows(rows[1..], newColumns, targetData);
    assert CopyRows(rows, newColumns, targetData) == CopySteps(rows[0], newColumns, targetData) + rest;
    if r == rows[0] {
      CopyStepsFrom(r, targetData);
      var s := Do(CreateColumnData(newColumns[r.columnId.value], r.dataIdx.GetOr(0), r.dataValue, None), WriteFailed("failed to copy column data"));
      assert CopySteps(r, newColumns, targetData) == [s];
      assert s in CopyRows(rows, newColumns, targetData);
    } else {
      assert r in rows[1..];
      CopiedCellsComplete(rows[1..], targetData, r);
      var s :| s in rest && CopiedFrom(s, r, targetData);
      assert s in CopyRows(rows, newColumns, targetData);
    }
  }

  // ---- validateHierarchicalMerge ----

  /** The ids of the target branch's sheets. */
  method SheetIds(sheets: seq<SheetRecord>) returns (ids: set<Uuid>)
    ensures ids == set s | s in sheets :: s.id
  {
    ids := {};
    for i := 0 to |sheets|
      invariant ids == set s | s in sheets[..i] :: s.id
    {
      assert forall x :: x in sheets[..i + 1] <==> x in sheets[..i] || x == sheets[i];
      ids := ids + {sheets[i].id};
    }
    assert sheets[..|sheets|] == sheets;
  }

  /** A sheet copied from one of `targetIds`. */
  predicate RefersTo(s: SheetRecord, targetIds: set<Uuid>)
  {
    s.sourceSheetId.Some? && s.sourceSheetId.value in targetIds
  }

  /** How many of the sheets were copied from one of `targetIds`. */
  function References(sheets: seq<SheetRecord>, targetIds: set<Uuid>): nat
  {
    if sheets == [] then 0
    else References(sheets[..|sheets| - 1], targetIds) + (if RefersTo(sheets[|sheets| - 1], targetIds) then 1 else 0)
  }

  /** The count is positive exactly when some sheet was copied from a target sheet. */
  lemma {:induction false} ReferencesPositive(sheets: seq<SheetRecord>, targetIds: set<Uuid>)
    ensures References(sheets, targetIds) > 0 <==> exists s :: s in sheets && RefersTo(s, targetIds)
  {
    if sheets != [] {
      var init := sheets[..|sheets| - 1];
      ReferencesPositive(init, targetIds);
      assert forall x :: x in sheets <==> x in init || x == sheets[|sheets| - 1];
    }
  }

  /** The counting loop. */
  method CountReferences(sheets: seq<SheetRecord>, targetIds: set<Uuid>) returns (n: nat)
    ensures n == References(sheets, targetIds)
  {
    n := 0;
    for i := 0 to |sheets|
      invariant n == References(sheets[..i], targetIds)
    {
      assert sheets[..i + 1][..i] == sheets[..i];
      if RefersTo(sheets[i], targetIds) {
        n := n + 1;
      }
    }
    assert sheets[..|sheets|] == sheets;
  }

  /** Some sheet of the source branch was copied from a sheet of the target branch. */
  predicate DescendsFrom(db: Db, sourceBranchId: Uuid, targetBranchId: Uuid)
  {
    var targetIds := set s | s in db.GetSheetsFromBranch(targetBranchId) :: s.id;
    exists s :: s in db.GetSheetsFromBranch(sourceBranchId) && RefersTo(s, targetIds)
  }

  /** `validateHierarchicalMerge`: a source branch with sheets must have one copied from the
      target, and the source must be the younger branch; missing branches are errors. */
  method ValidateHierarchicalMerge(db: Db, sourceBranchId: Uuid, targetBranchId: Uuid) returns (r: Result<bool, string>)
    ensures |db.GetSheetsFromBranch(sourceBranchId)| > 0 && !DescendsFrom(db, sourceBranchId, targetBranchId) ==>
      r == Success(false)
    ensures |db.GetSheetsFromBranch(sourceBranchId)| == 0 || DescendsFrom(db, sourceBranchId, targetBranchId) ==>
      var source, target := db.GetBranch(sourceBranchId), db.GetBranch(targetBranchId);
      && (source.None? ==> r == Failure("could not get source branch"))
      && (source.Some? && target.None? ==> r == Failure("could not get target branch"))
      && (source.Some? && target.Some? ==> r == Success(After(source.value.createdAt, target.value.createdAt)))
  {
    var sourceSheets := db.GetSheetsFromBranch(sourceBranchId);
    var targetSheets := db.GetSheetsFromBranch(targetBranchId);
    var targetSheetIds := SheetIds(targetSheets);
    var validReferences := CountReferences(sourceSheets, targetSheetIds);
    ReferencesPositive(sourceSheets, targetSheetIds);
    if |sourceSheets| > 0 && validReferences == 0 {
      return Success(false);
    }
    var sourceBranch := db.GetBranch(sourceBranchId);
    if sourceBranch.None? {
      return Failure("could not get source branch");
    }
    var targetBranch := db.GetBranch(targetBranchId);
    if targetBranch.None? {
      return Failure("could not get target branch");
    }
    if !After(sourceBranch.value.createdAt, targetBranch.value.createdAt) {
      return Success(false);
    }
    return Success(true);
  }
}

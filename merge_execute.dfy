/** `executeMerge` (backend/merge_execute.go): apply the chosen resolutions, then the source's
    non-conflicting cell updates, then the source's new cells, all into the target branch and
    all decided from the rows read before the merge began. */
module MergeExecute {
  import opened Wrappers
  import opened Store
  import opened MergePreview
  import opened MergePlan

  /** A row that carries a cell. Every row of the merge join that has a cell also has a
      column, so where the code tests only the cell id the model tests both. */
  predicate HasCell(r: MergeRow) { r.columnId.Some? && r.dataId.Some? }

  /** The row carries a cell whose match key is `key`. */
  predicate KeyIs(r: MergeRow, key: string) { HasCell(r) && CellKey(r) == key }

  /** Conflicts as detection produces them: a cell conflict's id has its five-character
      `cell-` prefix, and a column conflict names its column. */
  predicate WellFormed(conflicts: seq<MergeConflict>)
  {
    forall c :: c in conflicts ==>
      (c.kind == CellData ==> |c.id| >= 5) && (c.kind == ColumnProperty ==> c.columnId.Some?)
  }

  // ---- phase 1: resolutions ----

  /** A `source` resolution of a cell conflict: the first target cell whose key is the
      conflict id without its `cell-` prefix gets the value of the first source cell with
      that key, or the conflict's source text when there is none. */
  function CellResolutionSteps(c: MergeConflict, sourceData: seq<MergeRow>, targetData: seq<MergeRow>): seq<Step>
    requires |c.id| >= 5
  {
    var key := c.id[5..];
    var src := Find(sourceData, (r: MergeRow) => KeyIs(r, key));
    var value := if src.Some? then src.value.dataValue else Some(c.sourceValue);
    match Find(targetData, (r: MergeRow) => KeyIs(r, key))
    case None => []
    case Some(tr) => [Do(UpdateColumnData(tr.dataId.value, value), WriteFailed("failed to update cell data"))]
  }

  /** What one conflict's resolution writes. A missing resolution or one other than `source`
      and `target` stops the merge; `target` writes nothing. For `source`, a column or sheet
      conflict on the name renames (the column update carries only the name, so its type
      and required flag are sent as "" and false), and a type conflict writes nothing. */
  function ResolutionSteps(c: MergeConflict, resolutions: map<string, string>, sourceData: seq<MergeRow>, targetData: seq<MergeRow>): seq<Step>
    requires c.kind == CellData ==> |c.id| >= 5
    requires c.kind == ColumnProperty ==> c.columnId.Some?
  {
    if c.id !in resolutions then [Abort(MissingResolution(c.id))]
    else
      var res := resolutions[c.id];
      if res != "source" && res != "target" then [Abort(InvalidResolution(res, c.id))]
      else if res == "target" then []
      else
        match c.kind
        case CellData => CellResolutionSteps(c, sourceData, targetData)
        case ColumnProperty =>
          if c.property == "name"
          then [Do(UpdateColumn(c.columnId.value, c.sourceValue, "", false), WriteFailed("failed to update column name"))]
          else []
        case SheetProperty =>
          if c.property == "name"
          then [Do(RenameSheet(c.sheetId, c.sourceValue), WriteFailed("failed to update sheet name"))]
          else []
  }

  function ConflictPlan(conflicts: seq<MergeConflict>, resolutions: map<string, string>, sourceData: seq<MergeRow>, targetData: seq<MergeRow>): seq<Step>
    requires WellFormed(conflicts)
  {
    if conflicts == [] then []
    else ResolutionSteps(conflicts[0], resolutions, sourceData, targetData)
         + ConflictPlan(conflicts[1..], resolutions, sourceData, targetData)
  }

  /** One conflict's resolution. */
  method Resolve(db: Database, c: MergeConflict, resolutions: map<string, string>, sourceData: seq<MergeRow>, targetData: seq<MergeRow>)
    returns (err: Option<MergeError>)
    requires c.kind == CellData ==> |c.id| >= 5
    requires c.kind == ColumnProperty ==> c.columnId.Some?
    modifies db
    ensures (db.Snapshot(), err) == Run(old(db.Snapshot()), ResolutionSteps(c, resolutions, sourceData, targetData))
  {
    if c.id !in resolutions {
      return Some(MissingResolution(c.id));
    }
    var res := resolutions[c.id];
    if res != "source" && res != "target" {
      return Some(InvalidResolution(res, c.id));
    }
    err := None;
    if res == "source" {
      match c.kind
      case CellData =>
        var key := c.id[5..];
        var src := FindFirst(sourceData, (r: MergeRow) => KeyIs(r, key));
        var value := if src.Some? then src.value.dataValue else Some(c.sourceValue);
        var tr := FindFirst(targetData, (r: MergeRow) => KeyIs(r, key));
        if tr.Some? {
          err := PerformStep(db, Do(UpdateColumnData(tr.value.dataId.value, value), WriteFailed("failed to update cell data")));
        }
      case ColumnProperty =>
        if c.property == "name" {
          err := PerformStep(db, Do(UpdateColumn(c.columnId.value, c.sourceValue, "", false), WriteFailed("failed to update column name")));
        }
      case SheetProperty =>
        if c.property == "name" {
          err := PerformStep(db, Do(RenameSheet(c.sheetId, c.sourceValue), WriteFailed("failed to update sheet name")));
        }
    }
  }

  /** The loop over the conflicts. */
  method ApplyResolutions(db: Database, conflicts: seq<MergeConflict>, resolutions: map<string, string>, sourceData: seq<MergeRow>, targetData: seq<MergeRow>)
    returns (err: Option<MergeError>)
    requires WellFormed(conflicts)
    modifies db
    ensures (db.Snapshot(), err) == Run(old(db.Snapshot()), ConflictPlan(conflicts, resolutions, sourceData, targetData))
  {
    ghost var d0 := db.Snapshot();
    for i := 0 to |conflicts|
      invariant Run(d0, ConflictPlan(conflicts, resolutions, sourceData, targetData))
             == Run(db.Snapshot(), ConflictPlan(conflicts[i..], resolutions, sourceData, targetData))
    {
      assert conflicts[i..][1..] == conflicts[i + 1..];
      ghost var di := db.Snapshot();
      var steps := ResolutionSteps(conflicts[i], resolutions, sourceData, targetData);
      RunAppend(di, steps, ConflictPlan(conflicts[i + 1..], resolutions, sourceData, targetData));
      err := Resolve(db, conflicts[i], resolutions, sourceData, targetData);
      if err.Some? {
        return;
      }
    }
    err := None;
  }

  /** A resolution plan that runs to its end had, for every conflict, a resolution that is
      `source` or `target`. */
  lemma {:induction false} ResolvedPlanComplete(d: Db, conflicts: seq<MergeConflict>, resolutions: map<string, string>,
                                                sourceData: seq<MergeRow>, targetData: seq<MergeRow>)
    requires WellFormed(conflicts)
    requires Run(d, ConflictPlan(conflicts, resolutions, sourceData, targetData)).1.None?
    ensures forall c :: c in conflicts ==> c.id in resolutions && (resolutions[c.id] == "source" || resolutions[c.id] == "target")
    decreases |conflicts|
  {
    if conflicts != [] {
      var c := conflicts[0];
      var steps := ResolutionSteps(c, resolutions, sourceData, targetData);
      var rest := conflicts[1..];
      assert forall x :: x in conflicts <==> x == c || x in rest;
      RunAppend(d, steps, ConflictPlan(rest, resolutions, sourceData, targetData));
      ResolvedPlanComplete(Run(d, steps).0, rest, resolutions, sourceData, targetData);
    }
  }

  /** Keeping the target's side of every conflict writes nothing. */
  lemma {:induction false} AllTargetWritesNothing(conflicts: seq<MergeConflict>, resolutions: map<string, string>,
                                                  sourceData: seq<MergeRow>, targetData: seq<MergeRow>)
    requires WellFormed(conflicts)
    requires forall c :: c in conflicts ==> c.id in resolutions && resolutions[c.id] == "target"
    ensures ConflictPlan(conflicts, resolutions, sourceData, targetData) == []
  {
    if conflicts != [] {
      assert conflicts[0] in conflicts;
      assert forall x :: x in conflicts[1..] ==> x in conflicts;
      AllTargetWritesNothing(conflicts[1..], resolutions, sourceData, targetData);
    }
  }

  /** Conflicts as detection reports them are well formed. */
  lemma DetectedWellFormed(sourceData: seq<MergeRow>, targetData: seq<MergeRow>, t: Time, conflicts: seq<MergeConflict>)
    requires forall c :: c in conflicts ==> c in Conflicts(sourceData, targetData, t)
    ensures WellFormed(conflicts)
  {
    forall c | c in conflicts
      ensures (c.kind == CellData ==> |c.id| >= 5) && (c.kind == ColumnProperty ==> c.columnId.Some?)
    {
      ConflictIdShapes(sourceData, targetData, t, c);
    }
  }

  // ---- phase 2: non-conflicting updates ----

  /** The target cell a non-conflicting source update goes to: one whose own sheet and
      column ids are the source row's key parts, at the same index. */
  predicate OwnIdsMatch(tr: MergeRow, row: MergeRow)
  {
    HasCell(tr) && HasCell(row) && tr.sheetId == SheetKey(row) && tr.columnId.value == ColumnKey(row)
    && tr.dataIdx.GetOr(0) == row.dataIdx.GetOr(0)
  }

  /** A source cell with both timestamps, updated after the branch point. */
  predicate UpdatedSince(row: MergeRow, t: Time)
  {
    HasCell(row) && row.dataCreatedAt.Some? && row.dataUpdatedAt.Some? && After(row.dataUpdatedAt.value, t)
  }

  predicate IsCellConflictFor(c: MergeConflict, row: MergeRow)
    requires HasCell(row)
  {
    c.kind == CellData && c.id == "cell-" + CellKey(row)
  }

  /** What one source row's update writes: nothing when it was a conflict, else the value
      into the first target cell its ids match, if any. */
  function UpdateSteps(row: MergeRow, conflicts: seq<MergeConflict>, targetData: seq<MergeRow>, t: Time): seq<Step>
  {
    if !UpdatedSince(row, t) then []
    else if Find(conflicts, (c: MergeConflict) => IsCellConflictFor(c, row)).Some? then []
    else
      match Find(targetData, (tr: MergeRow) => OwnIdsMatch(tr, row))
      case None => []
      case Some(tr) => [Do(UpdateColumnData(tr.dataId.value, row.dataValue), WriteFailed("failed to update non-conflicting cell data"))]
  }

  function UpdatePlan(rows: seq<MergeRow>, conflicts: seq<MergeConflict>, targetData: seq<MergeRow>, t: Time): seq<Step>
  {
    if rows == [] then []
    else UpdateSteps(rows[0], conflicts, targetData, t) + UpdatePlan(rows[1..], conflicts, targetData, t)
  }

  /** One source row's update. */
  method ApplyUpdate(db: Database, row: MergeRow, conflicts: seq<MergeConflict>, targetData: seq<MergeRow>, t: Time)
    returns (err: Option<MergeError>)
    modifies db
    ensures (db.Snapshot(), err) == Run(old(db.Snapshot()), UpdateSteps(row, conflicts, targetData, t))
  {
    err := None;
    if !UpdatedSince(row, t) {
      return;
    }
    var wasConflict := FindFirst(conflicts, (c: MergeConflict) => IsCellConflictFor(c, row));
    if wasConflict.None? {
      var tr := FindFirst(targetData, (tr: MergeRow) => OwnIdsMatch(tr, row));
      if tr.Some? {
        err := PerformStep(db, Do(UpdateColumnData(tr.value.dataId.value, row.dataValue), WriteFailed("failed to update non-conflicting cell data")));
      }
    }
  }

  /** The loop over the source rows for updates. */
  method ApplyUpdates(db: Database, sourceData: seq<MergeRow>, conflicts: seq<MergeConflict>, targetData: seq<MergeRow>, t: Time)
    returns (err: Option<MergeError>)
    modifies db
    ensures (db.Snapshot(), err) == Run(old(db.Snapshot()), UpdatePlan(sourceData, conflicts, targetData, t))
  {
    ghost var d0 := db.Snapshot();
    for i := 0 to |sourceData|
      invariant Run(d0, UpdatePlan(sourceData, conflicts, targetData, t))
             == Run(db.Snapshot(), UpdatePlan(sourceData[i..], conflicts, targetData, t))
    {
      assert sourceData[i..][1..] == sourceData[i + 1..];
      RunAppend(db.Snapshot(), UpdateSteps(sourceData[i], conflicts, targetData, t), UpdatePlan(sourceData[i + 1..], conflicts, targetData, t));
      err := ApplyUpdate(db, sourceData[i], conflicts, targetData, t);
      if err.Some? {
        return;
      }
    }
    err := None;
  }

  /** `s` writes the value of source cell `row` into a target cell whose own sheet and column
      ids are the row's key parts, at its index; the row was updated after the branch point
      and no cell conflict names it. */
  predicate UpdatesFrom(s: Step, row: MergeRow, conflicts: seq<MergeConflict>, targetData: seq<MergeRow>, t: Time)
  {
    s.Do? && s.write.UpdateColumnData? && UpdatedSince(row, t)
    && (forall c :: c in conflicts ==> !IsCellConflictFor(c, row))
    && s.write.value == row.dataValue
    && exists tr :: tr in targetData && OwnIdsMatch(tr, row) && tr.dataId == Some(s.write.id)
  }

  /** Every non-conflicting update comes from a source row, as `UpdatesFrom` says. */
  lemma {:induction false} UpdatePlanFrom(rows: seq<MergeRow>, conflicts: seq<MergeConflict>, targetData: seq<MergeRow>, t: Time)
    ensures forall s :: s in UpdatePlan(rows, conflicts, targetData, t) ==>
      exists r :: r in rows && UpdatesFrom(s, r, conflicts, targetData, t)
  {
    if rows != [] {
      UpdatePlanFrom(rows[1..], conflicts, targetData, t);
      assert forall x :: x in rows[1..] ==> x in rows;
      assert rows[0] in rows;
    }
  }

  /** Every source row updated after the branch point that no cell conflict names and whose
      ids match a target cell has its value written, as `UpdatesFrom` says. */
  lemma {:induction false} UpdatePlanComplete(rows: seq<MergeRow>, conflicts: seq<MergeConflict>, targetData: seq<MergeRow>, t: Time,
                                              r: MergeRow)
    requires r in rows && UpdatedSince(r, t)
    requires forall c :: c in conflicts ==> !IsCellConflictFor(c, r)
    requires exists tr :: tr in targetData && OwnIdsMatch(tr, r)
    ensures exists s :: s in UpdatePlan(rows, conflicts, targetData, t) && UpdatesFrom(s, r, conflicts, targetData, t)
  {
    var rest := UpdatePlan(rows[1..], conflicts, targetData, t);
    assert UpdatePlan(rows, conflicts, targetData, t) == UpdateSteps(rows[0], conflicts, targetData, t) + rest;
    if r == rows[0] {
      var tr := Find(targetData, (tr: MergeRow) => OwnIdsMatch(tr, r)).value;
      var s := Do(UpdateColumnData(tr.dataId.value, r.dataValue), WriteFailed("failed to update non-conflicting cell data"));
      assert UpdateSteps(r, conflicts, targetData, t) == [s];
      assert UpdatesFrom(s, r, conflicts, targetData, t);
      assert s in UpdatePlan(rows, conflicts, targetData, t);
    } else {
      assert r in rows[1..];
      UpdatePlanComplete(rows[1..], conflicts, targetData, t, r);
      var s :| s in rest && UpdatesFrom(s, r, conflicts, targetData, t);
      assert s in UpdatePlan(rows, conflicts, targetData, t);
    }
  }

  // ---- phase 3: new cells ----

  /** A source cell created after the branch point. */
  predicate CreatedSince(row: MergeRow, t: Time)
  {
    HasCell(row) && row.dataCreatedAt.Some? && After(row.dataCreatedAt.value, t)
  }

  /** A target row of the column the source row's cell belongs to: the same key parts. */
  predicate SameColumnKey(tr: MergeRow, row: MergeRow)
  {
    tr.columnId.Some? && row.columnId.Some? && SheetKey(tr) == SheetKey(row) && ColumnKey(tr) == ColumnKey(row)
  }

  /** A target cell of that column at the source cell's index. */
  predicate SameCell(tr: MergeRow, row: MergeRow)
  {
    SameColumnKey(tr, row) && tr.dataId.Some? && tr.dataIdx.GetOr(0) == row.dataIdx.GetOr(0)
  }

  /** The scan of the target rows for the source cell: whether its column already has a cell
      at its index, and the column of the last matching row seen (from `col` on). */
  function ScanTarget(rows: seq<MergeRow>, row: MergeRow, col: Option<Uuid>): (r: (bool, Option<Uuid>))
    ensures r.0 <==> exists tr :: tr in rows && SameCell(tr, row)
    ensures r.1 != col ==> exists tr :: tr in rows && SameColumnKey(tr, row) && r.1 == tr.columnId
    ensures (forall tr :: tr in rows ==> !SameColumnKey(tr, row)) ==> r == (false, col)
  {
    if rows == [] then (false, col)
    else
      var tr := rows[0];
      assert forall x :: x in rows <==> x == tr || x in rows[1..];
      if SameColumnKey(tr, row) then
        if SameCell(tr, row) then (true, tr.columnId) else ScanTarget(rows[1..], row, tr.columnId)
      else ScanTarget(rows[1..], row, col)
  }

  /** The highest index of a cell of column `col` among the rows, -1 when it has none. */
  function MaxIdx(rows: seq<MergeRow>, col: Uuid): (m: int)
    ensures m >= -1
    ensures forall r :: r in rows && HasCell(r) && r.columnId.value == col ==> r.dataIdx.GetOr(0) <= m
    ensures m == -1 || exists r :: r in rows && HasCell(r) && r.columnId.value == col && r.dataIdx.GetOr(0) == m
  {
    if rows == [] then -1
    else
      var last := rows[|rows| - 1];
      var m := MaxIdx(rows[..|rows| - 1], col);
      assert forall x :: x in rows <==> x in rows[..|rows| - 1] || x == last;
      if HasCell(last) && last.columnId.value == col && last.dataIdx.GetOr(0) > m then last.dataIdx.GetOr(0) else m
  }

  /** The target column a source row's new cell goes into: the row must be a cell created
      after the branch point, its column must have no cell at its index, and some target row
      must match its key parts. */
  function NewCellColumn(row: MergeRow, targetData: seq<MergeRow>, t: Time): Option<Uuid>
  {
    if !CreatedSince(row, t) then None
    else
      var (found, col) := ScanTarget(targetData, row, None);
      if !found && col.Some? then col else None
  }

  /** The column for a new cell is a matching target column that has no cell at the source
      cell's index. */
  lemma NewCellColumnMatches(row: MergeRow, targetData: seq<MergeRow>, t: Time)
    requires NewCellColumn(row, targetData, t).Some?
    ensures CreatedSince(row, t)
    ensures exists tr :: tr in targetData && SameColumnKey(tr, row) && tr.columnId == NewCellColumn(row, targetData, t)
    ensures forall tr :: tr in targetData ==> !SameCell(tr, row)
  {
  }

  /** `s` creates, with no type, a cell holding the value of source cell `row`, which was
      created after the branch point, in a target column matching the row's key parts that
      has no cell at the row's index. */
  predicate CreatesFrom(s: Step, row: MergeRow, targetData: seq<MergeRow>, t: Time)
  {
    s.Do? && s.write.CreateColumnData? && CreatedSince(row, t)
    && s.write.value == row.dataValue && s.write.dataKind.None?
    && (forall tr :: tr in targetData ==> !SameCell(tr, row))
    && exists tr :: tr in targetData && SameColumnKey(tr, row) && tr.columnId == Some(s.write.columnId)
  }

  function CreateStep(col: Uuid, idx: int, row: MergeRow): Step
  {
    Do(CreateColumnData(col, idx, row.dataValue, None), WriteFailed("failed to create new column data"))
  }

  /** What one source row adds as the code writes it: its new cell, if it has one, at one
      past the highest index its column had in the pre-merge target rows. */
  function NewCellSteps(row: MergeRow, targetData: seq<MergeRow>, t: Time): seq<Step>
  {
    match NewCellColumn(row, targetData, t)
    case None => []
    case Some(col) => [CreateStep(col, MaxIdx(targetData, col) + 1, row)]
  }

  /** The new cells as the code writes them: the target rows are not re-read as cells are
      added, so every new cell of a column gets the same index. */
  function NewDataPlanAsWritten(rows: seq<MergeRow>, targetData: seq<MergeRow>, t: Time): seq<Step>
  {
    if rows == [] then []
    else NewCellSteps(rows[0], targetData, t) + NewDataPlanAsWritten(rows[1..], targetData, t)
  }

  /** `s` is the new cell of source row `r`, at one past its column's highest pre-merge
      index. */
  predicate NewCellOf(s: Step, r: MergeRow, targetData: seq<MergeRow>, t: Time)
  {
    NewCellColumn(r, targetData, t).Some?
    && s == CreateStep(NewCellColumn(r, targetData, t).value, MaxIdx(targetData, NewCellColumn(r, targetData, t).value) + 1, r)
  }

  /** The steps of the plan as written are exactly the new cells of the source rows. */
  lemma {:induction false} NewDataAsWrittenSteps(rows: seq<MergeRow>, targetData: seq<MergeRow>, t: Time)
    ensures forall s :: s in NewDataPlanAsWritten(rows, targetData, t) <==> exists r :: r in rows && NewCellOf(s, r, targetData, t)
  {
    if rows != [] {
      NewDataAsWrittenSteps(rows[1..], targetData, t);
      var head := NewCellSteps(rows[0], targetData, t);
      var rest := NewDataPlanAsWritten(rows[1..], targetData, t);
      assert forall s :: s in head <==> NewCellOf(s, rows[0], targetData, t);
      forall s
        ensures s in head + rest <==> exists r :: r in rows && NewCellOf(s, r, targetData, t)
      {
        if s in head + rest {
          if s in head {
            assert rows[0] in rows;
          } else {
            var r :| r in rows[1..] && NewCellOf(s, r, targetData, t);
            assert r in rows;
          }
        } else {
          forall r | r in rows ensures !NewCellOf(s, r, targetData, t) {
            if r != rows[0] {
              assert r in rows[1..];
            }
          }
        }
      }
    }
  }

  /** Every cell the plan as written creates comes from a source row, as `CreatesFrom` says,
      and sits at one past its column's highest pre-merge index, whichever other cells the
      plan puts there. */
  lemma NewDataAsWrittenFrom(rows: seq<MergeRow>, targetData: seq<MergeRow>, t: Time)
    ensures forall s :: s in NewDataPlanAsWritten(rows, targetData, t) ==>
      (exists r :: r in rows && CreatesFrom(s, r, targetData, t))
      && s.Do? && s.write.CreateColumnData? && s.write.idx == MaxIdx(targetData, s.write.columnId) + 1
  {
    NewDataAsWrittenSteps(rows, targetData, t);
    forall s | s in NewDataPlanAsWritten(rows, targetData, t)
      ensures exists r :: r in rows && CreatesFrom(s, r, targetData, t)
    {
      var r :| r in rows && NewCellOf(s, r, targetData, t);
      NewCellColumnMatches(r, targetData, t);
      assert CreatesFrom(s, r, targetData, t);
    }
  }

  /** The index the next new cell of `col` gets when `used` holds the last index given to each
      column so far. */
  function NextIdx(targetData: seq<MergeRow>, used: map<Uuid, int>, col: Uuid): int
  {
    (if col in used then used[col] else MaxIdx(targetData, col)) + 1
  }

  /** The new cells with the index each column hands out kept up to date: one past the
      highest index the column had or has been given during this merge. */
  function NewDataPlan(rows: seq<MergeRow>, targetData: seq<MergeRow>, t: Time, used: map<Uuid, int>): seq<Step>
  {
    if rows == [] then []
    else
      match NewCellColumn(rows[0], targetData, t)
      case None => NewDataPlan(rows[1..], targetData, t, used)
      case Some(col) =>
        var idx := NextIdx(targetData, used, col);
        [CreateStep(col, idx, rows[0])] + NewDataPlan(rows[1..], targetData, t, used[col := idx])
  }

  /** Every step creates a cell. */
  predicate AllCreates(steps: seq<Step>)
  {
    forall i :: 0 <= i < |steps| ==> steps[i].Do? && steps[i].write.CreateColumnData?
  }

  /** No two steps create a cell at the same index of the same column. */
  predicate DistinctCells(steps: seq<Step>)
    requires AllCreates(steps)
  {
    forall i, j :: 0 <= i < j < |steps| ==>
      (steps[i].write.columnId, steps[i].write.idx) != (steps[j].write.columnId, steps[j].write.idx)
  }

  /** Every index `used` records for a column lies above the column's pre-merge cells. */
  predicate UsedAbove(targetData: seq<MergeRow>, used: map<Uuid, int>)
  {
    forall c :: c in used ==> used[c] > MaxIdx(targetData, c)
  }

  /** What the corrected plan promises when it is built on top of `used`: every step creates
      a cell, no two at the same index of one column, each above its column's pre-merge cells
      and above the index `used` records for its column. */
  predicate FreshPlan(plan: seq<Step>, targetData: seq<MergeRow>, used: map<Uuid, int>)
  {
    && AllCreates(plan) && DistinctCells(plan)
    && (forall i :: 0 <= i < |plan| ==> plan[i].write.idx > MaxIdx(targetData, plan[i].write.columnId))
    && (forall i :: 0 <= i < |plan| && plan[i].write.columnId in used ==> plan[i].write.idx > used[plan[i].write.columnId])
  }

  /** A cell at the column's next index, put before a plan built on the updated indices. */
  lemma FreshCons(targetData: seq<MergeRow>, used: map<Uuid, int>, col: Uuid, row: MergeRow, rest: seq<Step>)
    requires UsedAbove(targetData, used)
    requires FreshPlan(rest, targetData, used[col := NextIdx(targetData, used, col)])
    ensures FreshPlan([CreateStep(col, NextIdx(targetData, used, col), row)] + rest, targetData, used)
  {
    var idx := NextIdx(targetData, used, col);
    var used' := used[col := idx];
    var plan := [CreateStep(col, idx, row)] + rest;
    assert idx > MaxIdx(targetData, col) && (col in used ==> idx > used[col]);
    assert AllCreates(plan) by {
      forall i | 0 <= i < |plan| ensures plan[i].Do? && plan[i].write.CreateColumnData? {
        if i > 0 { assert plan[i] == rest[i - 1]; }
      }
    }
    forall i, j | 0 <= i < j < |plan|
      ensures (plan[i].write.columnId, plan[i].write.idx) != (plan[j].write.columnId, plan[j].write.idx)
    {
      assert plan[j] == rest[j - 1];
      if i > 0 {
        assert plan[i] == rest[i - 1];
      } else if rest[j - 1].write.columnId == col {
        assert col in used' && rest[j - 1].write.idx > used'[col];
      }
    }
    forall i | 0 <= i < |plan|
      ensures plan[i].write.idx > MaxIdx(targetData, plan[i].write.columnId)
      ensures plan[i].write.columnId in used ==> plan[i].write.idx > used[plan[i].write.columnId]
    {
      if i > 0 {
        var w := rest[i - 1].write;
        assert plan[i] == rest[i - 1];
        assert w.columnId in used' ==> w.idx > used'[w.columnId];
      }
    }
  }

  /** The corrected new cells never collide: no two at the same index of one column, and
      none at an index the column already had. */
  lemma {:induction false} NewDataPlanFresh(rows: seq<MergeRow>, targetData: seq<MergeRow>, t: Time, used: map<Uuid, int>)
    requires UsedAbove(targetData, used)
    ensures var plan := NewDataPlan(rows, targetData, t, used);
      && AllCreates(plan) && DistinctCells(plan)
      && (forall i :: 0 <= i < |plan| ==> plan[i].write.idx > MaxIdx(targetData, plan[i].write.columnId))
      && (forall i :: 0 <= i < |plan| && plan[i].write.columnId in used ==> plan[i].write.idx > used[plan[i].write.columnId])
  {
    FreshFrom(rows, targetData, t, used);
  }

  lemma {:induction false} FreshFrom(rows: seq<MergeRow>, targetData: seq<MergeRow>, t: Time, used: map<Uuid, int>)
    requires UsedAbove(targetData, used)
    ensures FreshPlan(NewDataPlan(rows, targetData, t, used), targetData, used)
  {
    if rows != [] {
      match NewCellColumn(rows[0], targetData, t)
      case None =>
        FreshFrom(rows[1..], targetData, t, used);
      case Some(col) =>
        var used' := used[col := NextIdx(targetData, used, col)];
        FreshFrom(rows[1..], targetData, t, used');
        FreshCons(targetData, used, col, rows[0], NewDataPlan(rows[1..], targetData, t, used'));
    }
  }

  /** Every source row with a new cell gets it created by the corrected plan, at some index
      of its column. */
  lemma {:induction false} NewDataComplete(rows: seq<MergeRow>, targetData: seq<MergeRow>, t: Time, used: map<Uuid, int>, r: MergeRow)
    requires r in rows && NewCellColumn(r, targetData, t).Some?
    ensures exists idx :: CreateStep(NewCellColumn(r, targetData, t).value, idx, r) in NewDataPlan(rows, targetData, t, used)
  {
    var col := NewCellColumn(r, targetData, t).value;
    match NewCellColumn(rows[0], targetData, t)
    case None =>
      assert r != rows[0] && r in rows[1..];
      NewDataComplete(rows[1..], targetData, t, used, r);
    case Some(c) =>
      var idx := NextIdx(targetData, used, c);
      var rest := NewDataPlan(rows[1..], targetData, t, used[c := idx]);
      assert NewDataPlan(rows, targetData, t, used) == [CreateStep(c, idx, rows[0])] + rest;
      if r == rows[0] {
        assert CreateStep(col, idx, r) in NewDataPlan(rows, targetData, t, used);
      } else {
        assert r in rows[1..];
        NewDataComplete(rows[1..], targetData, t, used[c := idx], r);
        var j :| CreateStep(col, j, r) in rest;
        assert CreateStep(col, j, r) in NewDataPlan(rows, targetData, t, used);
      }
  }

  /** Every new cell comes from a source row, as `CreatesFrom` says. */
  lemma {:induction false} NewDataFrom(rows: seq<MergeRow>, targetData: seq<MergeRow>, t: Time, used: map<Uuid, int>)
    ensures forall s :: s in NewDataPlan(rows, targetData, t, used) ==>
      exists r :: r in rows && CreatesFrom(s, r, targetData, t)
  {
    if rows != [] {
      assert forall x :: x in rows[1..] ==> x in rows;
      assert rows[0] in rows;
      match NewCellColumn(rows[0], targetData, t)
      case None =>
        NewDataFrom(rows[1..], targetData, t, used);
      case Some(col) =>
        NewCellColumnMatches(rows[0], targetData, t);
        NewDataFrom(rows[1..], targetData, t, used[col := NextIdx(targetData, used, col)]);
    }
  }

  /** The finding: two new source cells of one column, at indices 1 and 2, whose target
      column holds a cell at index 0. The code as written creates both at index 1; the
      corrected plan creates them at 1 and 2. */
  lemma NewDataDuplicateIndex()
    ensures var target := [TargetCell(0)];
      var a, b := SourceNewCell(12, 1), SourceNewCell(13, 2);
      && NewDataPlanAsWritten([a, b], target, 0) == [CreateStep(2, 1, a), CreateStep(2, 1, b)]
      && NewDataPlan([a, b], target, 0, map[]) == [CreateStep(2, 1, a), CreateStep(2, 2, b)]
  {
    var target := [TargetCell(0)];
    var a, b := SourceNewCell(12, 1), SourceNewCell(13, 2);
    assert [a, b][1..] == [b];
    assert ScanTarget(target, a, None) == (false, Some(2)) by {
      assert target[1..] == [];
    }
    assert ScanTarget(target, b, None) == (false, Some(2)) by {
      assert target[1..] == [];
    }
    assert MaxIdx(target, 2) == 0 by {
      assert target[..0] == [];
    }
    assert NewCellColumn(a, target, 0) == Some(2) && NewCellColumn(b, target, 0) == Some(2);
    assert [b][1..] == [];
    assert NewDataPlanAsWritten([b], target, 0) == [CreateStep(2, 1, b)];
    assert NewDataPlan([b], target, 0, map[2 := 1]) == [CreateStep(2, 2, b)];
  }

  /** A cell of the oldest branch: sheet 1, column 2, at `idx`, with no lineage. */
  function TargetCell(idx: int): MergeRow
  {
    MergeRow(1, "s", "sheet", 0, None, Some(2), Some("c"), Some("string"), Some(false), Some(0), None,
             Some(3), Some(idx), Some("x"), Some(0), Some(0))
  }

  /** A cell created at time 5 in a copy of that column. */
  function SourceNewCell(id: Uuid, idx: int): MergeRow
  {
    MergeRow(10, "s", "sheet", 0, Some(1), Some(11), Some("c"), Some("string"), Some(false), Some(0), Some(2),
             Some(id), Some(idx), Some("y"), Some(5), Some(5))
  }

  /** The scan loop of one new source cell over the target rows. */
  method ScanTargetColumn(targetData: seq<MergeRow>, row: MergeRow) returns (found: bool, col: Option<Uuid>)
    ensures (found, col) == ScanTarget(targetData, row, None)
  {
    found, col := false, None;
    var i := 0;
    while i < |targetData|
      invariant 0 <= i <= |targetData|
      invariant ScanTarget(targetData, row, None) == ScanTarget(targetData[i..], row, col)
    {
      assert targetData[i..][1..] == targetData[i + 1..];
      var tr := targetData[i];
      if SameColumnKey(tr, row) {
        col := tr.columnId;
        if SameCell(tr, row) {
          found := true;
          return;
        }
      }
      i := i + 1;
    }
  }

  /** The running maximum over the target rows. */
  method MaxIdxOf(targetData: seq<MergeRow>, col: Uuid) returns (m: int)
    ensures m == MaxIdx(targetData, col)
  {
    m := -1;
    for i := 0 to |targetData|
      invariant m == MaxIdx(targetData[..i], col)
    {
      ghost var seen := targetData[..i + 1];
      assert seen[..|seen| - 1] == targetData[..i] && seen[|seen| - 1] == targetData[i];
      var tr := targetData[i];
      if HasCell(tr) && tr.columnId.value == col && tr.dataIdx.GetOr(0) > m {
        m := tr.dataIdx.GetOr(0);
      }
    }
    assert targetData[..|targetData|] == targetData;
  }

  /** A source row without a new cell adds no step to the new-cell plan. */
  lemma RunNewDataSkip(d: Db, rows: seq<MergeRow>, targetData: seq<MergeRow>, t: Time, used: map<Uuid, int>)
    requires rows != [] && NewCellColumn(rows[0], targetData, t).None?
    ensures Run(d, NewDataPlan(rows, targetData, t, used)) == Run(d, NewDataPlan(rows[1..], targetData, t, used))
  {
  }

  /** A source row with a new cell runs its create step, and unless that fails, the rest of
      the rows with the column's index advanced. */
  lemma RunNewDataCreate(d: Db, rows: seq<MergeRow>, targetData: seq<MergeRow>, t: Time, used: map<Uuid, int>,
                         col: Uuid, idx: int)
    requires rows != [] && NewCellColumn(rows[0], targetData, t) == Some(col)
    requires idx == NextIdx(targetData, used, col)
    ensures var first := Run(d, [CreateStep(col, idx, rows[0])]);
      Run(d, NewDataPlan(rows, targetData, t, used))
        == if first.1.Some? then first else Run(first.0, NewDataPlan(rows[1..], targetData, t, used[col := idx]))
  {
    RunAppend(d, [CreateStep(col, idx, rows[0])], NewDataPlan(rows[1..], targetData, t, used[col := idx]));
  }

  /** The test of a source row in the new-data loop: created after the branch point, then
      the scan of the target rows. */
  method FindNewCellColumn(row: MergeRow, targetData: seq<MergeRow>, t: Time) returns (column: Option<Uuid>)
    ensures column == NewCellColumn(row, targetData, t)
  {
    column := None;
    if CreatedSince(row, t) {
      var found, col := ScanTargetColumn(targetData, row);
      if !found && col.Some? {
        column := col;
      }
    }
  }

  /** The body of the new-data loop for one source row, up to the write: the scan of the
      target rows, then the highest index of the column found. */
  method NewCellOfRow(row: MergeRow, targetData: seq<MergeRow>, t: Time) returns (steps: seq<Step>)
    ensures steps == NewCellSteps(row, targetData, t)
  {
    var column := FindNewCellColumn(row, targetData, t);
    if column.Some? {
      var maxIdx := MaxIdxOf(targetData, column.value);
      steps := [CreateStep(column.value, maxIdx + 1, row)];
    } else {
      steps := [];
    }
  }

  /** One source row's new cell, as the code writes it. */
  method CopyNewCell(db: Database, row: MergeRow, targetData: seq<MergeRow>, t: Time) returns (err: Option<MergeError>)
    modifies db
    ensures (db.Snapshot(), err) == Run(old(db.Snapshot()), NewCellSteps(row, targetData, t))
  {
    var steps := NewCellOfRow(row, targetData, t);
    err := PerformSteps(db, steps);
  }

  /** The loop over the source rows for new cells, as the code writes it. */
  method CopyNewData(db: Database, sourceData: seq<MergeRow>, targetData: seq<MergeRow>, t: Time)
    returns (err: Option<MergeError>)
    modifies db
    ensures (db.Snapshot(), err) == Run(old(db.Snapshot()), NewDataPlanAsWritten(sourceData, targetData, t))
  {
    ghost var d0 := db.Snapshot();
    for i := 0 to |sourceData|
      invariant Run(d0, NewDataPlanAsWritten(sourceData, targetData, t))
             == Run(db.Snapshot(), NewDataPlanAsWritten(sourceData[i..], targetData, t))
    {
      assert sourceData[i..][1..] == sourceData[i + 1..];
      RunAppend(db.Snapshot(), NewCellSteps(sourceData[i], targetData, t), NewDataPlanAsWritten(sourceData[i + 1..], targetData, t));
      err := CopyNewCell(db, sourceData[i], targetData, t);
      if err.Some? {
        return;
      }
    }
    err := None;
  }

  /** The loop over the source rows for new cells, with the corrected indices: each column
      remembers the last index it handed out. */
  method CopyNewDataCorrected(db: Database, sourceData: seq<MergeRow>, targetData: seq<MergeRow>, t: Time)
    returns (err: Option<MergeError>)
    modifies db
    ensures (db.Snapshot(), err) == Run(old(db.Snapshot()), NewDataPlan(sourceData, targetData, t, map[]))
  {
    ghost var d0 := db.Snapshot();
    var used: map<Uuid, int> := map[];
    for i := 0 to |sourceData|
      invariant Run(d0, NewDataPlan(sourceData, targetData, t, map[]))
             == Run(db.Snapshot(), NewDataPlan(sourceData[i..], targetData, t, used))
    {
      assert sourceData[i..][1..] == sourceData[i + 1..];
      var row := sourceData[i];
      if CreatedSince(row, t) {
        var found, col := ScanTargetColumn(targetData, row);
        if !found && col.Some? {
          var idx;
          if col.value in used {
            idx := used[col.value] + 1;
          } else {
            var maxIdx := MaxIdxOf(targetData, col.value);
            idx := maxIdx + 1;
          }
          var step := CreateStep(col.value, idx, row);
          RunNewDataCreate(db.Snapshot(), sourceData[i..], targetData, t, used, col.value, idx);
          err := PerformStep(db, step);
          if err.Some? {
            return;
          }
          used := used[col.value := idx];
        } else {
          RunNewDataSkip(db.Snapshot(), sourceData[i..], targetData, t, used);
        }
      } else {
        RunNewDataSkip(db.Snapshot(), sourceData[i..], targetData, t, used);
      }
    }
    err := None;
  }

  // ---- the whole of executeMerge ----

  /** Everything `executeMerge` writes, in order. */
  function ExecutePlan(sourceData: seq<MergeRow>, targetData: seq<MergeRow>, conflicts: seq<MergeConflict>,
                       resolutions: map<string, string>, t: Time): seq<Step>
    requires WellFormed(conflicts)
  {
    ConflictPlan(conflicts, resolutions, sourceData, targetData)
    + UpdatePlan(sourceData, conflicts, targetData, t)
    + NewDataPlanAsWritten(sourceData, targetData, t)
  }

  /** `executeMerge`: the three phases in order, stopping at the first error. */
  method ExecuteMerge(db: Database, sourceData: seq<MergeRow>, targetData: seq<MergeRow>, conflicts: seq<MergeConflict>,
                      resolutions: map<string, string>, t: Time) returns (err: Option<MergeError>)
    requires WellFormed(conflicts)
    modifies db
    ensures (db.Snapshot(), err) == Run(old(db.Snapshot()), ExecutePlan(sourceData, targetData, conflicts, resolutions, t))
  {
    ghost var d0 := db.Snapshot();
    ghost var p1 := ConflictPlan(conflicts, resolutions, sourceData, targetData);
    ghost var p2 := UpdatePlan(sourceData, conflicts, targetData, t);
    ghost var p3 := NewDataPlanAsWritten(sourceData, targetData, t);
    RunAppend(d0, p1, p2 + p3);
    assert p1 + (p2 + p3) == p1 + p2 + p3;
    err := ApplyResolutions(db, conflicts, resolutions, sourceData, targetData);
    if err.Some? {
      return;
    }
    RunAppend(db.Snapshot(), p2, p3);
    err := ApplyUpdates(db, sourceData, conflicts, targetData, t);
    if err.Some? {
      return;
    }
    err := CopyNewData(db, sourceData, targetData, t);
  }
}

/** Merge conflict detection (backend/merge_preview.go): the source and target branches are
    each read as flat sheet/column/cell rows, indexed by id and by cell key, and every
    sheet, column property and cell changed on both sides since the source branch was
    created is reported.

    A cell is matched across branches by its key `sheetKey-columnKey-idx`, where each part
    is the lineage id (`SourceSheetID`, `SourceColumnID`) when the row has one and its own
    id otherwise. Sheets and columns are matched by their own ids. */
module MergePreview {
  import opened Wrappers
  import opened Store
  import opened Text
  import opened Permissions

  // ---- keys ----

  /** A cell's match key from its three parts, as `fmt.Sprintf("%s-%s-%d", ...)` prints them. */
  function KeyText(sheetKey: Uuid, columnKey: Uuid, idx: int): string
  {
    NatText(sheetKey) + "-" + NatText(columnKey) + "-" + IntText(idx)
  }

  /** The sheet part of a row's cell key: its lineage id when valid, else its own id. */
  function SheetKey(r: MergeRow): (k: Uuid)
    ensures r.sourceSheetId.Some? ==> k == r.sourceSheetId.value
    ensures r.sourceSheetId.None? ==> k == r.sheetId
  {
    r.sourceSheetId.GetOr(r.sheetId)
  }

  /** The column part of a row's cell key, for a row that has a column. */
  function ColumnKey(r: MergeRow): (k: Uuid)
    requires r.columnId.Some?
    ensures r.sourceColumnId.Some? ==> k == r.sourceColumnId.value
    ensures r.sourceColumnId.None? ==> k == r.columnId.value
  {
    r.sourceColumnId.GetOr(r.columnId.value)
  }

  /** A row's cell key; a NULL index prints as 0, Go's zero value. */
  function CellKey(r: MergeRow): string
    requires r.columnId.Some?
  {
    KeyText(SheetKey(r), ColumnKey(r), r.dataIdx.GetOr(0))
  }

  /** Rows are indexed by their sheet id, ... */
  function SheetIdOf(r: MergeRow): Option<Uuid> { Some(r.sheetId) }

  /** ... by their column id when they have a column, ... */
  function ColumnIdOf(r: MergeRow): Option<Uuid> { r.columnId }

  /** ... and by their cell key when they have a column and a cell. */
  function CellKeyOf(r: MergeRow): Option<string>
  {
    if r.columnId.Some? && r.dataId.Some? then Some(CellKey(r)) else None
  }

  // ---- lookup maps ----

  /** The map that assigning `m[key(row)] = row` for each keyed row in turn builds: a later
      row with the same key replaces an earlier one. */
  function Index<K>(rows: seq<MergeRow>, key: MergeRow -> Option<K>): map<K, MergeRow>
  {
    if rows == [] then map[]
    else
      var m := Index(rows[..|rows| - 1], key);
      var last := rows[|rows| - 1];
      match key(last)
      case None => m
      case Some(k) => m[k := last]
  }

  /** A key is in the map exactly when some row has it, and it maps to the last such row. */
  lemma IndexLastWins<K>(rows: seq<MergeRow>, key: MergeRow -> Option<K>, k: K)
    ensures k in Index(rows, key) <==> exists i :: 0 <= i < |rows| && key(rows[i]) == Some(k)
    ensures k in Index(rows, key) ==>
      exists i :: 0 <= i < |rows| && key(rows[i]) == Some(k) && Index(rows, key)[k] == rows[i]
                  && forall j :: i < j < |rows| ==> key(rows[j]) != Some(k)
  {
    IndexHas(rows, key, k);
    if k in Index(rows, key) {
      IndexLast(rows, key, k);
    }
  }

  /** A key is in the map exactly when some row has it. */
  lemma {:induction false} IndexHas<K>(rows: seq<MergeRow>, key: MergeRow -> Option<K>, k: K)
    ensures k in Index(rows, key) <==> exists i :: 0 <= i < |rows| && key(rows[i]) == Some(k)
  {
    if rows != [] {
      var init := rows[..|rows| - 1];
      IndexHas(init, key, k);
      assert forall i :: 0 <= i < |init| ==> init[i] == rows[i];
    }
  }

  /** A key in the map maps to the last row that has it. */
  lemma {:induction false} IndexLast<K>(rows: seq<MergeRow>, key: MergeRow -> Option<K>, k: K)
    requires k in Index(rows, key)
    ensures exists i :: 0 <= i < |rows| && key(rows[i]) == Some(k) && Index(rows, key)[k] == rows[i]
                        && forall j :: i < j < |rows| ==> key(rows[j]) != Some(k)
  {
    var init, n := rows[..|rows| - 1], |rows| - 1;
    if key(rows[n]) != Some(k) {
      IndexLast(init, key, k);
      var i :| 0 <= i < |init| && key(init[i]) == Some(k) && Index(init, key)[k] == init[i]
               && forall j :: i < j < |init| ==> key(init[j]) != Some(k);
      assert init[i] == rows[i];
      assert forall j :: i < j < n ==> init[j] == rows[j];
    }
  }

  /** The six lookup maps of one side, as the two row loops build them. */
  datatype Indexes = Indexes(sheets: map<Uuid, MergeRow>, columns: map<Uuid, MergeRow>, cells: map<string, MergeRow>)

  function IndexesOf(rows: seq<MergeRow>): Indexes
  {
    Indexes(Index(rows, SheetIdOf), Index(rows, ColumnIdOf), Index(rows, CellKeyOf))
  }

  /** One of the two indexing loops. */
  method IndexRows(rows: seq<MergeRow>) returns (ix: Indexes)
    ensures ix == IndexesOf(rows)
  {
    var sheets: map<Uuid, MergeRow> := map[];
    var columns: map<Uuid, MergeRow> := map[];
    var cells: map<string, MergeRow> := map[];
    for i := 0 to |rows|
      invariant sheets == Index(rows[..i], SheetIdOf)
      invariant columns == Index(rows[..i], ColumnIdOf)
      invariant cells == Index(rows[..i], CellKeyOf)
    {
      assert rows[..i + 1][..i] == rows[..i];
      var row := rows[i];
      sheets := sheets[row.sheetId := row];
      if row.columnId.Some? {
        columns := columns[row.columnId.value := row];
        if row.dataId.Some? {
          cells := cells[CellKey(row) := row];
        }
      }
    }
    assert rows[..|rows|] == rows;
    ix := Indexes(sheets, columns, cells);
  }

  // ---- conflicts ----

  datatype ConflictType = CellData | ColumnProperty | SheetProperty

  /** The `type` string a conflict carries. */
  function TypeName(t: ConflictType): string
  {
    match t
    case CellData => "cell_data"
    case ColumnProperty => "column_property"
    case SheetProperty => "sheet_property"
  }

  /** A reported conflict. `columnId` and `rowIndex` are absent where the JSON omits them. */
  datatype MergeConflict = MergeConflict(
    id: string, kind: ConflictType, sheetId: Uuid, sheetName: string,
    columnId: Option<Uuid>, columnName: string, rowIndex: Option<int>, property: string,
    sourceValue: string, targetValue: string, sourceUpdatedAt: Time, targetUpdatedAt: Time)

  /** A cell's text for comparison: NULL reads as "". */
  function ValueText(r: MergeRow): string { r.dataValue.GetOr("") }

  predicate ColumnChanged(r: MergeRow, t: Time) { r.columnUpdatedAt.Some? && After(r.columnUpdatedAt.value, t) }
  predicate CellChanged(r: MergeRow, t: Time) { r.dataUpdatedAt.Some? && After(r.dataUpdatedAt.value, t) }

  function SheetConflict(id: Uuid, s: MergeRow, tr: MergeRow): MergeConflict
  {
    MergeConflict("sheet-" + NatText(id), SheetProperty, id, s.sheetName, None, "", None, "name",
                  s.sheetName, tr.sheetName, s.sheetUpdatedAt, tr.sheetUpdatedAt)
  }

  function ColumnConflict(id: Uuid, property: string, sv: string, tv: string, s: MergeRow, tr: MergeRow): MergeConflict
  {
    MergeConflict("column-" + NatText(id) + "-" + property, ColumnProperty, s.sheetId, s.sheetName, Some(id),
                  s.columnName.GetOr(""), None, property, sv, tv,
                  s.columnUpdatedAt.GetOr(0), tr.columnUpdatedAt.GetOr(0))
  }

  function CellConflict(key: string, s: MergeRow, tr: MergeRow): MergeConflict
  {
    MergeConflict("cell-" + key, CellData, s.sheetId, s.sheetName, s.columnId, s.columnName.GetOr(""),
                  Some(s.dataIdx.GetOr(0)), "", ValueText(s), ValueText(tr),
                  s.dataUpdatedAt.GetOr(0), tr.dataUpdatedAt.GetOr(0))
  }

  /** What one source sheet contributes: a conflict when the target has a sheet with the same
      id and both were updated after the branch point, whatever their names. */
  function SheetConflictsAt(src: Indexes, tgt: Indexes, t: Time, id: Uuid): seq<MergeConflict>
  {
    if id in src.sheets && id in tgt.sheets && After(src.sheets[id].sheetUpdatedAt, t) && After(tgt.sheets[id].sheetUpdatedAt, t)
    then [SheetConflict(id, src.sheets[id], tgt.sheets[id])]
    else []
  }

  /** What one source column contributes: when the target has a column with the same id and
      both were updated after the branch point, a conflict for a differing name and one for a
      differing type. */
  function ColumnConflictsAt(src: Indexes, tgt: Indexes, t: Time, id: Uuid): seq<MergeConflict>
  {
    if id in src.columns && id in tgt.columns && ColumnChanged(src.columns[id], t) && ColumnChanged(tgt.columns[id], t) then
      var s, tr := src.columns[id], tgt.columns[id];
      (if s.columnName.GetOr("") != tr.columnName.GetOr("")
       then [ColumnConflict(id, "name", s.columnName.GetOr(""), tr.columnName.GetOr(""), s, tr)] else [])
      + (if s.columnType.GetOr("") != tr.columnType.GetOr("")
         then [ColumnConflict(id, "type", s.columnType.GetOr(""), tr.columnType.GetOr(""), s, tr)] else [])
    else []
  }

  /** What one source cell contributes: a conflict when the target has a cell with the same
      key, both were updated after the branch point, and their texts differ. */
  function CellConflictsAt(src: Indexes, tgt: Indexes, t: Time, key: string): seq<MergeConflict>
  {
    if key in src.cells && key in tgt.cells && CellChanged(src.cells[key], t) && CellChanged(tgt.cells[key], t)
       && ValueText(src.cells[key]) != ValueText(tgt.cells[key])
    then [CellConflict(key, src.cells[key], tgt.cells[key])]
    else []
  }

  /** Everything `f` yields over `keys`. */
  function Gather<K>(keys: set<K>, f: K -> seq<MergeConflict>): set<MergeConflict>
  {
    set k, c | k in keys && c in f(k) :: c
  }

  /** The sheet conflicts of all source sheets. */
  function SheetConflictSet(src: Indexes, tgt: Indexes, t: Time): set<MergeConflict>
  {
    set id, c | id in src.sheets.Keys && c in SheetConflictsAt(src, tgt, t, id) :: c
  }

  /** The column property conflicts of all source columns. */
  function ColumnConflictSet(src: Indexes, tgt: Indexes, t: Time): set<MergeConflict>
  {
    set id, c | id in src.columns.Keys && c in ColumnConflictsAt(src, tgt, t, id) :: c
  }

  /** The cell conflicts of all source cells. */
  function CellConflictSet(src: Indexes, tgt: Indexes, t: Time): set<MergeConflict>
  {
    set key, c | key in src.cells.Keys && c in CellConflictsAt(src, tgt, t, key) :: c
  }

  /** The conflicts between two branches' rows, for a source branch created at `t`. */
  function Conflicts(sourceData: seq<MergeRow>, targetData: seq<MergeRow>, t: Time): set<MergeConflict>
  {
    var src, tgt := IndexesOf(sourceData), IndexesOf(targetData);
    SheetConflictSet(src, tgt, t) + ColumnConflictSet(src, tgt, t) + CellConflictSet(src, tgt, t)
  }

  predicate Distinct<T(==)>(s: seq<T>)
  {
    forall i, j :: 0 <= i < j < |s| ==> s[i] != s[j]
  }

  /** A `for ... range` over a Go map, appending what each key yields: the keys come in some
      order, each once. */
  method EmitEach<K>(keys: set<K>, f: K -> seq<MergeConflict>) returns (out: seq<MergeConflict>)
    requires forall k :: k in keys ==> Distinct(f(k))
    requires forall k1, k2, c :: k1 in keys && k2 in keys && k1 != k2 && c in f(k1) ==> c !in f(k2)
    ensures (set c | c in out) == Gather(keys, f)
    ensures Distinct(out)
  {
    out := [];
    var rest := keys;
    ghost var done: set<K> := {};
    while rest != {}
      invariant rest + done == keys && rest !! done
      invariant (set c | c in out) == Gather(done, f)
      invariant Distinct(out)
      decreases |rest|
    {
      var k :| k in rest;
      assert forall c :: c in out ==> c !in f(k) by {
        forall c | c in out
          ensures c !in f(k)
        {
          assert c in Gather(done, f);
          var k' :| k' in done && c in f(k');
        }
      }
      assert Gather(done + {k}, f) == Gather(done, f) + (set c | c in f(k));
      assert (set c | c in out + f(k)) == (set c | c in out) + (set c | c in f(k));
      DistinctConcat(out, f(k));
      out := out + f(k);
      rest := rest - {k};
      done := done + {k};
    }
  }

  lemma DistinctConcat<T>(a: seq<T>, b: seq<T>)
    requires Distinct(a) && Distinct(b)
    requires forall x :: x in a ==> x !in b
    ensures Distinct(a + b)
  {
    forall i, j | 0 <= i < j < |a + b|
      ensures (a + b)[i] != (a + b)[j]
    {
      if j >= |a| && i < |a| {
        assert (a + b)[j] in b;
      }
    }
  }

  /** Conflicts gathered from a function that yields only one kind are all of that kind. */
  lemma KindOfEmitted<K>(out: seq<MergeConflict>, keys: set<K>, f: K -> seq<MergeConflict>, kind: ConflictType)
    requires (set c | c in out) == Gather(keys, f)
    requires forall k, c :: k in keys && c in f(k) ==> c.kind == kind
    ensures forall c :: c in out ==> c.kind == kind
  {
    forall c | c in out
      ensures c.kind == kind
    {
      assert c in Gather(keys, f);
      var k :| k in keys && c in f(k);
    }
  }

  lemma CellIdInjective(k1: string, k2: string)
    requires "cell-" + k1 == "cell-" + k2
    ensures k1 == k2
  {
    assert k1 == ("cell-" + k1)[5..];
  }

  /** The loop over the source sheet map. */
  method EmitSheetConflicts(src: Indexes, tgt: Indexes, t: Time) returns (out: seq<MergeConflict>)
    ensures (set c | c in out) == SheetConflictSet(src, tgt, t)
    ensures Distinct(out) && forall c :: c in out ==> c.kind == SheetProperty
  {
    var f := id => SheetConflictsAt(src, tgt, t, id);
    out := EmitEach(src.sheets.Keys, f);
    KindOfEmitted(out, src.sheets.Keys, f, SheetProperty);
    assert Gather(src.sheets.Keys, f) == SheetConflictSet(src, tgt, t);
  }

  /** The loop over the source column map. */
  method EmitColumnConflicts(src: Indexes, tgt: Indexes, t: Time) returns (out: seq<MergeConflict>)
    ensures (set c | c in out) == ColumnConflictSet(src, tgt, t)
    ensures Distinct(out) && forall c :: c in out ==> c.kind == ColumnProperty
  {
    var f := id => ColumnConflictsAt(src, tgt, t, id);
    out := EmitEach(src.columns.Keys, f);
    KindOfEmitted(out, src.columns.Keys, f, ColumnProperty);
    assert Gather(src.columns.Keys, f) == ColumnConflictSet(src, tgt, t);
  }

  /** The loop over the source cell map. */
  method EmitCellConflicts(src: Indexes, tgt: Indexes, t: Time) returns (out: seq<MergeConflict>)
    ensures (set c | c in out) == CellConflictSet(src, tgt, t)
    ensures Distinct(out) && forall c :: c in out ==> c.kind == CellData
  {
    var f := key => CellConflictsAt(src, tgt, t, key);
    forall k1, k2, c | k1 in src.cells.Keys && k2 in src.cells.Keys && k1 != k2 && c in f(k1)
      ensures c !in f(k2)
    {
      if c in f(k2) {
        CellIdInjective(k1, k2);
      }
    }
    out := EmitEach(src.cells.Keys, f);
    KindOfEmitted(out, src.cells.Keys, f, CellData);
    assert Gather(src.cells.Keys, f) == CellConflictSet(src, tgt, t);
  }

  /** `detectMergeConflicts`: each conflict once, and exactly the conflicts of the two
      branches' rows. */
  method DetectMergeConflicts(sourceData: seq<MergeRow>, targetData: seq<MergeRow>, branchCreatedAt: Time)
    returns (conflicts: seq<MergeConflict>)
    ensures (set c | c in conflicts) == Conflicts(sourceData, targetData, branchCreatedAt)
    ensures Distinct(conflicts)
  {
    var src := IndexRows(sourceData);
    var tgt := IndexRows(targetData);
    var sheetConflicts := EmitSheetConflicts(src, tgt, branchCreatedAt);
    var columnConflicts := EmitColumnConflicts(src, tgt, branchCreatedAt);
    var cellConflicts := EmitCellConflicts(src, tgt, branchCreatedAt);
    DistinctConcat(sheetConflicts, columnConflicts);
    DistinctConcat(sheetConflicts + columnConflicts, cellConflicts);
    conflicts := sheetConflicts + columnConflicts + cellConflicts;
  }

  // ---- the conflict rules ----

  /** Which part of the result a conflict comes from is told by its kind. */
  lemma ConflictParts(sourceData: seq<MergeRow>, targetData: seq<MergeRow>, t: Time, c: MergeConflict)
    requires c in Conflicts(sourceData, targetData, t)
    ensures var src, tgt := IndexesOf(sourceData), IndexesOf(targetData);
      && (c.kind == SheetProperty ==> c in SheetConflictSet(src, tgt, t))
      && (c.kind == ColumnProperty ==> c in ColumnConflictSet(src, tgt, t))
      && (c.kind == CellData ==> c in CellConflictSet(src, tgt, t))
  {
    var src, tgt := IndexesOf(sourceData), IndexesOf(targetData);
    if c in SheetConflictSet(src, tgt, t) {
      var id :| id in src.sheets.Keys && c in SheetConflictsAt(src, tgt, t, id);
    } else if c in ColumnConflictSet(src, tgt, t) {
      var id :| id in src.columns.Keys && c in ColumnConflictsAt(src, tgt, t, id);
    } else {
      var key :| key in src.cells.Keys && c in CellConflictsAt(src, tgt, t, key);
    }
  }

  /** A cell conflict for key `key` is reported exactly when both branches have a cell with
      that key, both cells were updated after the branch point, and their texts differ. */
  lemma CellConflictRule(sourceData: seq<MergeRow>, targetData: seq<MergeRow>, t: Time, key: string)
    ensures var src, tgt := IndexesOf(sourceData), IndexesOf(targetData);
      (exists c :: c in Conflicts(sourceData, targetData, t) && c.kind == CellData && c.id == "cell-" + key)
      <==> key in src.cells && key in tgt.cells && CellChanged(src.cells[key], t) && CellChanged(tgt.cells[key], t)
           && ValueText(src.cells[key]) != ValueText(tgt.cells[key])
  {
    var src, tgt := IndexesOf(sourceData), IndexesOf(targetData);
    if c :| c in Conflicts(sourceData, targetData, t) && c.kind == CellData && c.id == "cell-" + key {
      ConflictParts(sourceData, targetData, t, c);
      var k :| k in src.cells.Keys && c in CellConflictsAt(src, tgt, t, k);
      CellIdInjective(k, key);
    }
    if key in src.cells && key in tgt.cells && CellChanged(src.cells[key], t) && CellChanged(tgt.cells[key], t)
       && ValueText(src.cells[key]) != ValueText(tgt.cells[key]) {
      var c := CellConflict(key, src.cells[key], tgt.cells[key]);
      assert c in CellConflictsAt(src, tgt, t, key);
      assert c in CellConflictSet(src, tgt, t);
    }
  }

  /** A cell updated after the branch point on one side only is never a conflict. */
  lemma OneSidedCellChangeNoConflict(sourceData: seq<MergeRow>, targetData: seq<MergeRow>, t: Time, key: string)
    requires var src, tgt := IndexesOf(sourceData), IndexesOf(targetData);
      key in src.cells && key in tgt.cells && (!CellChanged(src.cells[key], t) || !CellChanged(tgt.cells[key], t))
    ensures forall c :: c in Conflicts(sourceData, targetData, t) && c.kind == CellData ==> c.id != "cell-" + key
  {
    CellConflictRule(sourceData, targetData, t, key);
  }

  /** A NULL cell and an empty cell never conflict. */
  lemma NullMatchesEmpty(sourceData: seq<MergeRow>, targetData: seq<MergeRow>, t: Time, key: string)
    requires var src, tgt := IndexesOf(sourceData), IndexesOf(targetData);
      key in src.cells && key in tgt.cells
      && ((src.cells[key].dataValue == None && tgt.cells[key].dataValue == Some(""))
          || (src.cells[key].dataValue == Some("") && tgt.cells[key].dataValue == None))
    ensures forall c :: c in Conflicts(sourceData, targetData, t) && c.kind == CellData ==> c.id != "cell-" + key
  {
    CellConflictRule(sourceData, targetData, t, key);
  }

  /** A column conflict on `property` is reported for column `id` exactly when both branches
      have a column with that id, both were updated after the branch point, and `property` is
      the name or the type and differs; the required flag is never compared. */
  lemma ColumnConflictRule(sourceData: seq<MergeRow>, targetData: seq<MergeRow>, t: Time, id: Uuid, property: string)
    ensures var src, tgt := IndexesOf(sourceData), IndexesOf(targetData);
      (exists c :: c in Conflicts(sourceData, targetData, t) && c.kind == ColumnProperty
                   && c.columnId == Some(id) && c.property == property)
      <==> id in src.columns && id in tgt.columns && ColumnChanged(src.columns[id], t) && ColumnChanged(tgt.columns[id], t)
           && ((property == "name" && src.columns[id].columnName.GetOr("") != tgt.columns[id].columnName.GetOr(""))
               || (property == "type" && src.columns[id].columnType.GetOr("") != tgt.columns[id].columnType.GetOr("")))
  {
    var src, tgt := IndexesOf(sourceData), IndexesOf(targetData);
    if c :| c in Conflicts(sourceData, targetData, t) && c.kind == ColumnProperty && c.columnId == Some(id) && c.property == property {
      ColumnConflictReported(sourceData, targetData, t, c);
    }
    if id in src.columns && id in tgt.columns && ColumnChanged(src.columns[id], t) && ColumnChanged(tgt.columns[id], t) {
      ColumnConflictFound(sourceData, targetData, t, id, property);
    }
  }

  /** A reported column conflict is on a column both branches have and updated after the
      branch point, and on its name or type, which differ. */
  lemma ColumnConflictReported(sourceData: seq<MergeRow>, targetData: seq<MergeRow>, t: Time, c: MergeConflict)
    requires c in Conflicts(sourceData, targetData, t) && c.kind == ColumnProperty
    ensures var src, tgt := IndexesOf(sourceData), IndexesOf(targetData);
      c.columnId.Some? && var id := c.columnId.value;
      id in src.columns && id in tgt.columns && ColumnChanged(src.columns[id], t) && ColumnChanged(tgt.columns[id], t)
      && ((c.property == "name" && src.columns[id].columnName.GetOr("") != tgt.columns[id].columnName.GetOr(""))
          || (c.property == "type" && src.columns[id].columnType.GetOr("") != tgt.columns[id].columnType.GetOr("")))
  {
    var src, tgt := IndexesOf(sourceData), IndexesOf(targetData);
    ConflictParts(sourceData, targetData, t, c);
    var k :| k in src.columns.Keys && c in ColumnConflictsAt(src, tgt, t, k);
  }

  /** A column both branches have and updated after the branch point is reported on its name
      and on its type when those differ. */
  lemma ColumnConflictFound(sourceData: seq<MergeRow>, targetData: seq<MergeRow>, t: Time, id: Uuid, property: string)
    requires var src, tgt := IndexesOf(sourceData), IndexesOf(targetData);
      id in src.columns && id in tgt.columns && ColumnChanged(src.columns[id], t) && ColumnChanged(tgt.columns[id], t)
    ensures var src, tgt := IndexesOf(sourceData), IndexesOf(targetData);
      ((property == "name" && src.columns[id].columnName.GetOr("") != tgt.columns[id].columnName.GetOr(""))
       || (property == "type" && src.columns[id].columnType.GetOr("") != tgt.columns[id].columnType.GetOr("")))
      ==> exists c :: c in Conflicts(sourceData, targetData, t) && c.kind == ColumnProperty
                      && c.columnId == Some(id) && c.property == property
  {
    var src, tgt := IndexesOf(sourceData), IndexesOf(targetData);
    var sc, tc := src.columns[id], tgt.columns[id];
    if property == "name" && sc.columnName.GetOr("") != tc.columnName.GetOr("") {
      var c := ColumnConflict(id, "name", sc.columnName.GetOr(""), tc.columnName.GetOr(""), sc, tc);
      assert c in ColumnConflictsAt(src, tgt, t, id);
      assert c in ColumnConflictSet(src, tgt, t);
    }
    if property == "type" && sc.columnType.GetOr("") != tc.columnType.GetOr("") {
      var c := ColumnConflict(id, "type", sc.columnType.GetOr(""), tc.columnType.GetOr(""), sc, tc);
      assert c in ColumnConflictsAt(src, tgt, t, id);
      assert c in ColumnConflictSet(src, tgt, t);
    }
  }

  /** A sheet conflict is reported for sheet `id` exactly when both branches have a sheet with
      that id and both were updated after the branch point, even when the names agree. */
  lemma SheetConflictRule(sourceData: seq<MergeRow>, targetData: seq<MergeRow>, t: Time, id: Uuid)
    ensures var src, tgt := IndexesOf(sourceData), IndexesOf(targetData);
      (exists c :: c in Conflicts(sourceData, targetData, t) && c.kind == SheetProperty && c.sheetId == id)
      <==> id in src.sheets && id in tgt.sheets
           && After(src.sheets[id].sheetUpdatedAt, t) && After(tgt.sheets[id].sheetUpdatedAt, t)
  {
    var src, tgt := IndexesOf(sourceData), IndexesOf(targetData);
    if c :| c in Conflicts(sourceData, targetData, t) && c.kind == SheetProperty && c.sheetId == id {
      ConflictParts(sourceData, targetData, t, c);
      var k :| k in src.sheets.Keys && c in SheetConflictsAt(src, tgt, t, k);
    }
    if id in src.sheets && id in tgt.sheets && After(src.sheets[id].sheetUpdatedAt, t) && After(tgt.sheets[id].sheetUpdatedAt, t) {
      var c := SheetConflict(id, src.sheets[id], tgt.sheets[id]);
      assert c in SheetConflictsAt(src, tgt, t, id);
      assert c in SheetConflictSet(src, tgt, t);
    }
  }

  /** The shape of every conflict id: `sheet-<id>`, `column-<id>-name`, `column-<id>-type`,
      and `cell-<key>` whose key, the id without its five-character prefix, names a cell on
      both sides. */
  lemma ConflictIdShapes(sourceData: seq<MergeRow>, targetData: seq<MergeRow>, t: Time, c: MergeConflict)
    requires c in Conflicts(sourceData, targetData, t)
    ensures var src, tgt := IndexesOf(sourceData), IndexesOf(targetData);
      && (c.kind == SheetProperty ==> c.id == "sheet-" + NatText(c.sheetId) && c.property == "name")
      && (c.kind == ColumnProperty ==> c.columnId.Some? && (c.property == "name" || c.property == "type")
                                       && c.id == "column-" + NatText(c.columnId.value) + "-" + c.property)
      && (c.kind == CellData ==> |c.id| >= 5 && c.id == "cell-" + c.id[5..]
                                 && c.id[5..] in src.cells && c.id[5..] in tgt.cells && c.rowIndex.Some?)
  {
    var src, tgt := IndexesOf(sourceData), IndexesOf(targetData);
    ConflictParts(sourceData, targetData, t, c);
    if c.kind == SheetProperty {
      var k :| k in src.sheets.Keys && c in SheetConflictsAt(src, tgt, t, k);
    } else if c.kind == ColumnProperty {
      var k :| k in src.columns.Keys && c in ColumnConflictsAt(src, tgt, t, k);
    } else {
      var k :| k in src.cells.Keys && c in CellConflictsAt(src, tgt, t, k);
      assert ("cell-" + k)[5..] == k;
    }
  }

  // ---- the handler ----

  /** `mergePreviewHandler` after the request is decoded: both branches must exist, the user
      must read the source and write the target; the answer is the conflict list, never nil. */
  method MergePreview(db: Db, user: Uuid, sourceBranchId: Uuid, targetBranchId: Uuid) returns (r: Response<seq<MergeConflict>>)
    ensures db.GetBranch(sourceBranchId).None? ==> r == RespondError(404, "Source branch not found")
    ensures db.GetBranch(sourceBranchId).Some? && db.GetBranch(targetBranchId).None? ==>
      r == RespondError(404, "Target branch not found")
    ensures db.GetBranch(sourceBranchId).Some? && db.GetBranch(targetBranchId).Some? ==>
      && (!CheckBranchPermission(db, user, sourceBranchId, "read") ==>
            r == RespondError(403, "No read permission on source branch"))
      && (CheckBranchPermission(db, user, sourceBranchId, "read") && !CheckBranchPermission(db, user, targetBranchId, "write") ==>
            r == RespondError(403, "No write permission on target branch"))
      && (CheckBranchPermission(db, user, sourceBranchId, "read") && CheckBranchPermission(db, user, targetBranchId, "write") ==>
            r.Respond? && r.code == 200 && Distinct(r.body)
            && (set c | c in r.body) == Conflicts(db.GetBranchDataForMerge(sourceBranchId), db.GetBranchDataForMerge(targetBranchId),
                                                   db.GetBranch(sourceBranchId).value.createdAt))
  {
    var sourceBranch := db.GetBranch(sourceBranchId);
    if sourceBranch.None? {
      return RespondError(404, "Source branch not found");
    }
    if db.GetBranch(targetBranchId).None? {
      return RespondError(404, "Target branch not found");
    }
    if !CheckBranchPermission(db, user, sourceBranchId, "read") {
      return RespondError(403, "No read permission on source branch");
    }
    if !CheckBranchPermission(db, user, targetBranchId, "write") {
      return RespondError(403, "No write permission on target branch");
    }
    var sourceData := db.GetBranchDataForMerge(sourceBranchId);
    var targetData := db.GetBranchDataForMerge(targetBranchId);
    var conflicts := DetectMergeConflicts(sourceData, targetData, sourceBranch.value.createdAt);
    r := Respond(200, conflicts);
  }
}

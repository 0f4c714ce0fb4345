/** The JSON export of a branch (backend/get_json.go): every sheet becomes a list of
    `RowCount` rows, each row a map from column name to the text of that column's cell at
    the row's index. */
module JsonExport {
  import opened Wrappers
  import opened Store
  import opened Columns

  /** Cells in ascending order of their index, as the lookup below expects. */
  predicate SortedByIdx(data: seq<ColumnData>)
  {
    forall i, j :: 0 <= i < j < |data| ==> data[i].idx <= data[j].idx
  }

  predicate HasIdx(data: seq<ColumnData>, idx: int)
  {
    exists i :: 0 <= i < |data| && data[i].idx == idx
  }

  /** `sort.Search` over `[lo, hi)` for the predicate "index at least `target`": halve the
      range until it is empty. On sorted cells the result is the first position whose index
      is at least `target`, or `hi` when there is none. */
  function Search(data: seq<ColumnData>, target: int, lo: nat, hi: nat): (r: nat)
    requires lo <= hi <= |data|
    ensures lo <= r <= hi
    ensures SortedByIdx(data) ==> forall k :: lo <= k < r ==> data[k].idx < target
    ensures SortedByIdx(data) && r < hi ==> data[r].idx >= target
    decreases hi - lo
  {
    if lo == hi then lo
    else
      var h := (lo + hi) / 2;
      if data[h].idx < target then Search(data, target, h + 1, hi) else Search(data, target, lo, h)
  }

  /** `getDataAtColIdx`: the value of the cell at index `idx`, and whether there is one. */
  function GetDataAtColIdx(data: seq<ColumnData>, idx: int): (r: (Option<string>, bool))
    ensures !r.1 ==> r.0 == None
    ensures SortedByIdx(data) ==> (r.1 <==> HasIdx(data, idx))
    ensures SortedByIdx(data) && r.1 ==>
      exists i :: 0 <= i < |data| && data[i].idx == idx && r.0 == data[i].value
                  && forall j :: 0 <= j < i ==> data[j].idx != idx
  {
    var i := Search(data, idx, 0, |data|);
    if i >= |data| || data[i].idx != idx then (None, false) else (data[i].value, true)
  }

  /** An index beyond every stored index finds nothing, sorted or not. */
  lemma GetDataBeyondLast(data: seq<ColumnData>, idx: int)
    requires forall i :: 0 <= i < |data| ==> data[i].idx < idx
    ensures GetDataAtColIdx(data, idx) == (None, false)
  {
  }

  /** On sorted cells, the lookup agrees with a plain scan for the first cell at `idx`. */
  function ScanAt(data: seq<ColumnData>, idx: int): (Option<string>, bool)
  {
    if data == [] then (None, false)
    else if data[0].idx == idx then (data[0].value, true)
    else ScanAt(data[1..], idx)
  }

  lemma {:induction false} ScanAtFirst(data: seq<ColumnData>, idx: int, i: nat)
    requires i < |data| && data[i].idx == idx && forall j :: 0 <= j < i ==> data[j].idx != idx
    ensures ScanAt(data, idx) == (data[i].value, true)
  {
    if i > 0 {
      ScanAtFirst(data[1..], idx, i - 1);
    }
  }

  lemma {:induction false} ScanAtAbsent(data: seq<ColumnData>, idx: int)
    requires !HasIdx(data, idx)
    ensures ScanAt(data, idx) == (None, false)
  {
    if data != [] {
      assert forall k :: 0 <= k < |data| - 1 ==> data[1..][k] == data[k + 1];
      ScanAtAbsent(data[1..], idx);
    }
  }

  lemma GetDataAtColIdxIsScan(data: seq<ColumnData>, idx: int)
    requires SortedByIdx(data)
    ensures GetDataAtColIdx(data, idx) == ScanAt(data, idx)
  {
    var r := GetDataAtColIdx(data, idx);
    if r.1 {
      var i :| 0 <= i < |data| && data[i].idx == idx && r.0 == data[i].value
               && forall j :: 0 <= j < i ==> data[j].idx != idx;
      ScanAtFirst(data, idx, i);
    } else {
      ScanAtAbsent(data, idx);
    }
  }

  /** Row `i` of a sheet's export: for each column in turn that has a cell at `i`, the
      column's name is mapped to the cell's text (a NULL cell gives ""), a later column
      overwriting an earlier one of the same name. */
  function RowAt(columns: seq<Column>, i: int): map<string, string>
  {
    if columns == [] then map[]
    else
      var m := RowAt(columns[..|columns| - 1], i);
      var c := columns[|columns| - 1];
      var (v, ok) := GetDataAtColIdx(c.data, i);
      if ok then m[c.name := v.GetOr("")] else m
  }

  /** The rows `stringMapsFromSheet` produces for a stored sheet. */
  function SheetRows(db: Db, sheet: SheetRecord): seq<map<string, string>>
  {
    var columns := Group(db.GetColumnsWithDataBySheet(sheet.id));
    seq(sheet.rowCount, i requires 0 <= i < sheet.rowCount => RowAt(columns, i))
  }

  /** The inner loop of `stringMapsFromSheet`: fill one row column by column. */
  method FillRow(columns: seq<Column>, i: int) returns (row: map<string, string>)
    ensures row == RowAt(columns, i)
  {
    row := map[];
    for e := 0 to |columns|
      invariant row == RowAt(columns[..e], i)
    {
      assert columns[..e + 1][..e] == columns[..e];
      var (val, ok) := GetDataAtColIdx(columns[e].data, i);
      if ok {
        row := row[columns[e].name := val.GetOr("")];
      }
    }
    assert columns[..|columns|] == columns;
  }

  /** `stringMapsFromSheet`: one row per index below the stored row count. */
  method StringMapsFromSheet(db: Db, sheet: SheetRecord) returns (rows: seq<map<string, string>>)
    ensures |rows| == sheet.rowCount
    ensures rows == SheetRows(db, sheet)
  {
    var columns := GetColumns(db.GetColumnsWithDataBySheet(sheet.id));
    ghost var all := SheetRows(db, sheet);
    rows := [];
    for i := 0 to sheet.rowCount
      invariant rows == all[..i]
    {
      var row := FillRow(columns, i);
      assert all[..i + 1] == all[..i] + [all[i]];
      rows := rows + [row];
    }
    assert all[..sheet.rowCount] == all;
  }

  /** A row has key `name` exactly when some column of that name has a cell at the row's
      index. */
  lemma {:induction false} RowAtKeys(columns: seq<Column>, i: int, name: string)
    ensures name in RowAt(columns, i) <==>
      exists j :: 0 <= j < |columns| && columns[j].name == name && GetDataAtColIdx(columns[j].data, i).1
  {
    if columns != [] {
      var init := columns[..|columns| - 1];
      RowAtKeys(init, i, name);
      assert forall j :: 0 <= j < |init| ==> init[j] == columns[j];
    }
  }

  /** Of several columns with the same name, the last one with a cell at the row's index
      gives the value. */
  lemma {:induction false} RowAtLastColumnWins(columns: seq<Column>, i: int, j: nat)
    requires j < |columns| && GetDataAtColIdx(columns[j].data, i).1
    requires forall k :: j < k < |columns| && columns[k].name == columns[j].name ==> !GetDataAtColIdx(columns[k].data, i).1
    ensures columns[j].name in RowAt(columns, i)
    ensures RowAt(columns, i)[columns[j].name] == GetDataAtColIdx(columns[j].data, i).0.GetOr("")
  {
    var init := columns[..|columns| - 1];
    if j < |columns| - 1 {
      assert init[j] == columns[j];
      RowAtLastColumnWins(init, i, j);
    }
  }

  /** `getJsonHandler`: a malformed branch id is a bad request; otherwise one row list per
      sheet of the branch, in sheet order. */
  method GetJson(db: Db, branchId: Option<Uuid>) returns (r: Response<seq<seq<map<string, string>>>>)
    ensures branchId.None? ==> r == RespondError(400, "Could not parse the sheet id from url")
    ensures branchId.Some? ==>
      var sheets := db.GetSheetsFromBranch(branchId.value);
      r.Respond? && r.code == 200 && |r.body| == |sheets|
      && forall k :: 0 <= k < |sheets| ==> r.body[k] == SheetRows(db, sheets[k])
  {
    if branchId.None? {
      return RespondError(400, "Could not parse the sheet id from url");
    }
    var sheets := db.GetSheetsFromBranch(branchId.value);
    var data: seq<seq<map<string, string>>> := [];
    for k := 0 to |sheets|
      invariant |data| == k
      invariant forall m :: 0 <= m < k ==> data[m] == SheetRows(db, sheets[m])
    {
      var rows := StringMapsFromSheet(db, sheets[k]);
      data := data + [rows];
    }
    r := Respond(200, data);
  }
}

/** The sheet a client opens (backend/get_sheet.go): the stored sheet with its assembled
    columns, its branch, the list of its branch's sheets and a row count. */
module SheetView {
  import opened Wrappers
  import opened Store
  import opened Columns

  datatype IdName = IdName(id: Uuid, name: string)

  /** The branch as shown with a sheet; its enums are not part of this model. */
  datatype BranchView = BranchView(id: Uuid, name: string, isProtected: bool)

  datatype Sheet = Sheet(
    id: Uuid, name: string, rowCount: nat, kind: string, columns: seq<Column>,
    currBranch: BranchView, sheetsIdNames: seq<IdName>)

  /** The length of the longest column, 0 for no columns: the number of cells, not the
      highest index plus one. */
  function Longest(columns: seq<Column>): (r: nat)
    ensures forall c :: c in columns ==> |c.data| <= r
    ensures columns == [] ==> r == 0
    ensures columns != [] ==> exists c :: c in columns && r == |c.data|
  {
    if columns == [] then 0
    else
      var init := columns[..|columns| - 1];
      var last := columns[|columns| - 1];
      assert forall c :: c in columns <==> c in init || c == last;
      var m := Longest(init);
      if |last.data| > m then |last.data| else m
  }

  /** The running maximum of the column lengths. */
  method RowCount(columns: seq<Column>) returns (n: nat)
    ensures n == Longest(columns)
  {
    n := 0;
    for i := 0 to |columns|
      invariant n == Longest(columns[..i])
    {
      assert columns[..i + 1][..i] == columns[..i];
      var currLen := |columns[i].data|;
      if currLen > n {
        n := currLen;
      }
    }
    assert columns[..|columns|] == columns;
  }

  /** Every sheet of the list, in order, by id and name. */
  method IdNames(sheets: seq<SheetRecord>) returns (r: seq<IdName>)
    ensures |r| == |sheets|
    ensures forall i :: 0 <= i < |sheets| ==> r[i].id == sheets[i].id && r[i].name == sheets[i].name
  {
    r := [];
    for i := 0 to |sheets|
      invariant |r| == i
      invariant forall k :: 0 <= k < i ==> r[k] == IdName(sheets[k].id, sheets[k].name)
    {
      r := r + [IdName(sheets[i].id, sheets[i].name)];
    }
  }

  /** `view` is what the store shows for `sheet`: its own fields, the columns assembled from
      its rows, its branch, every sheet of that branch in order, and the longest column's
      length as row count. */
  predicate Describes(db: Db, sheet: SheetRecord, view: Sheet)
  {
    var sheets := db.GetSheetsFromBranch(sheet.branchId);
    view.id == sheet.id && view.name == sheet.name && view.kind == sheet.kind
    && view.columns == Group(db.GetColumnsWithDataBySheet(sheet.id))
    && view.rowCount == Longest(view.columns)
    && db.GetBranch(sheet.branchId).Some?
    && view.currBranch == BranchView(sheet.branchId, db.GetBranch(sheet.branchId).value.name,
                                     db.GetBranch(sheet.branchId).value.isProtected)
    && |view.sheetsIdNames| == |sheets|
    && forall i :: 0 <= i < |sheets| ==>
         view.sheetsIdNames[i].id == sheets[i].id && view.sheetsIdNames[i].name == sheets[i].name
  }

  /** `buildSheetResponse`: fails only when the sheet's branch is missing. */
  method BuildSheetResponse(db: Db, sheet: SheetRecord) returns (r: Result<Sheet, string>)
    ensures db.GetBranch(sheet.branchId).None? ==> r == Failure("Could not get branch with given id")
    ensures db.GetBranch(sheet.branchId).Some? ==> r.Success? && Describes(db, sheet, r.value)
  {
    var branch := db.GetBranch(sheet.branchId);
    if branch.None? {
      return Failure("Could not get branch with given id");
    }
    assert branch.value.id == sheet.branchId;
    var currBranch := BranchView(branch.value.id, branch.value.name, branch.value.isProtected);
    var sheetsIdNames := IdNames(db.GetSheetsFromBranch(sheet.branchId));
    var columns := GetColumns(db.GetColumnsWithDataBySheet(sheet.id));
    var rowCount := RowCount(columns);
    r := Success(Sheet(sheet.id, sheet.name, rowCount, sheet.kind, columns, currBranch, sheetsIdNames));
  }

  /** `GetSheet`: the sheet for an optional id; no id, no such sheet and no such branch are
      each an error. */
  method GetSheet(db: Db, optionalSheetId: Option<Uuid>) returns (r: Result<Sheet, string>)
    ensures optionalSheetId.None? ==> r == Failure("Table id not present")
    ensures optionalSheetId.Some? && db.GetSheet(optionalSheetId.value).None? ==>
      r == Failure("Could not get sheet with given id")
    ensures optionalSheetId.Some? && db.GetSheet(optionalSheetId.value).Some? ==>
      var sheet := db.GetSheet(optionalSheetId.value).value;
      sheet.id == optionalSheetId.value
      && (db.GetBranch(sheet.branchId).None? ==> r == Failure("Could not get branch with given id"))
      && (db.GetBranch(sheet.branchId).Some? ==> r.Success? && Describes(db, sheet, r.value))
  {
    if optionalSheetId.None? {
      return Failure("Table id not present");
    }
    var sheet := db.GetSheet(optionalSheetId.value);
    if sheet.None? {
      return Failure("Could not get sheet with given id");
    }
    r := BuildSheetResponse(db, sheet.value);
  }
}

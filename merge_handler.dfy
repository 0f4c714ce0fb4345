/** `mergeExecuteHandler` (backend/merge_execute.go): checks the request, detects the
    conflicts again, runs `executeMerge` and the three additions, and deletes the source
    branch. */
module MergeHandler {
  import opened Wrappers
  import opened Store
  import opened Permissions
  import opened MergePreview
  import opened MergePlan
  import opened MergeExecute
  import opened MergeAdditions

  datatype MergeResolution = MergeResolution(conflictId: string, chosenSource: string)

  datatype MergeExecuteResponse = MergeExecuteResponse(success: bool, message: string, targetBranchId: Uuid)

  /** The resolution chosen for each conflict id: the map holds the ids the resolutions name,
      and no more entries than there are resolutions. */
  function ResolutionMap(resolutions: seq<MergeResolution>): (m: map<string, string>)
    ensures forall id :: id in m <==> exists r :: r in resolutions && r.conflictId == id
    ensures |m| <= |resolutions|
  {
    if resolutions == [] then map[]
    else
      var init := resolutions[..|resolutions| - 1];
      var last := resolutions[|resolutions| - 1];
      assert forall r :: r in resolutions <==> r in init || r == last;
      var m := ResolutionMap(init);
      assert m[last.conflictId := last.chosenSource].Keys == m.Keys + {last.conflictId};
      m[last.conflictId := last.chosenSource]
  }

  /** Of several resolutions of one conflict, the last counts. */
  lemma {:induction false} ResolutionMapLastWins(resolutions: seq<MergeResolution>, i: nat)
    requires i < |resolutions|
    requires forall j :: i < j < |resolutions| ==> resolutions[j].conflictId != resolutions[i].conflictId
    ensures ResolutionMap(resolutions)[resolutions[i].conflictId] == resolutions[i].chosenSource
  {
    var init := resolutions[..|resolutions| - 1];
    if i < |resolutions| - 1 {
      ResolutionMapLastWins(init, i);
    }
  }

  /** The loop filling `resolutionMap`. */
  method BuildResolutionMap(resolutions: seq<MergeResolution>) returns (m: map<string, string>)
    ensures m == ResolutionMap(resolutions)
  {
    m := map[];
    for i := 0 to |resolutions|
      invariant m == ResolutionMap(resolutions[..i])
    {
      assert resolutions[..i + 1][..i] == resolutions[..i];
      m := m[resolutions[i].conflictId := resolutions[i].chosenSource];
    }
    assert resolutions[..|resolutions|] == resolutions;
  }

  /** The handler compares the number of conflicts with the number of resolutions, not their
      ids: two resolutions of one conflict pass that check with another conflict unresolved,
      and the merge then stops at it. */
  lemma CountCheckAdmitsMissing()
    ensures var resolutions := [MergeResolution("a", "source"), MergeResolution("a", "target")];
      |resolutions| == 2 && "b" !in ResolutionMap(resolutions)
  {
  }

  /** How an error of the merge reads. */
  function ErrorText(e: MergeError): string
  {
    match e
    case MissingResolution(id) => "no resolution provided for conflict " + id
    case InvalidResolution(res, id) => "invalid resolution " + res + " for conflict " + id
    case WriteFailed(message) => message
  }

  // ---- the merge target ----

  /** The branch the handler merges into, as written: the oldest branch of the source's
      table, whichever branch that is. */
  function MergeTargetAsWritten(d: Db, source: BranchRecord): Option<BranchRecord>
  {
    d.GetOldestBranchFromTable(source.tableId)
  }

  /** The finding: when the source is itself the oldest branch of its table, the merge goes
      into the source, and deleting the source after the merge deletes the branch it merged
      into. */
  lemma MergeIntoItselfDeletesTarget()
    ensures var b := BranchRecord(1, 7, "main", false, 0);
      var d := Db([b], [], [], [], map[], 2, 0, {}, 0);
      && MergeTargetAsWritten(d, b) == Some(b)
      && d.RemoveBranch(b.id).0.GetBranch(b.id).None?
  {
    var b := BranchRecord(1, 7, "main", false, 0);
    var d := Db([b], [], [], [], map[], 2, 0, {}, 0);
    assert d.GetBranchesFromTable(7) == [b] by {
      assert [b][1..] == [];
    }
    assert OldestIn([b]) == Some(b) by {
      assert [b][1..] == [];
    }
    assert d.RemoveBranch(b.id).0.branches == [] by {
      assert [b][1..] == [];
    }
  }

  /** The branch a merge goes into, corrected: the oldest branch of the source's table,
      provided that is not the source itself. The handler as written does not make this
      check. */
  function CorrectedMergeTarget(d: Db, source: BranchRecord): (r: Result<BranchRecord, (int, string)>)
    ensures r.Success? <==> MergeTargetAsWritten(d, source).Some? && MergeTargetAsWritten(d, source).value.id != source.id
    ensures r.Success? ==> r.value == MergeTargetAsWritten(d, source).value && r.value.tableId == source.tableId
  {
    match d.GetOldestBranchFromTable(source.tableId)
    case None => Failure((500, "Could not find target branch (oldest branch in table)"))
    case Some(oldest) =>
      if oldest.id == source.id then Failure((400, "Cannot merge the oldest branch into itself"))
      else Success(oldest)
  }

  // ---- the handler ----

  /** The checks before any write: the source exists, its table has an oldest branch, which
      is the target even when it is the source, and the user may read the source and write
      the target. */
  function Admit(d: Db, user: Uuid, sourceBranchId: Uuid): Result<(BranchRecord, BranchRecord), (int, string)>
  {
    match d.GetBranch(sourceBranchId)
    case None => Failure((404, "Source branch not found"))
    case Some(source) =>
      match MergeTargetAsWritten(d, source)
      case None => Failure((500, "Could not find target branch (oldest branch in table)"))
      case Some(target) =>
        if !CheckBranchPermission(d, user, sourceBranchId, "read") then Failure((403, "No read permission on source branch"))
        else if !CheckBranchPermission(d, user, target.id, "write") then Failure((403, "No write permission on target branch"))
        else Success((source, target))
  }

  /** A request is admitted exactly when its source exists, the source's table has an oldest
      branch, and the user may read the source and write that branch. */
  lemma AdmitMeans(d: Db, user: Uuid, sourceBranchId: Uuid)
    ensures Admit(d, user, sourceBranchId).Success? <==>
      && d.GetBranch(sourceBranchId).Some?
      && d.GetOldestBranchFromTable(d.GetBranch(sourceBranchId).value.tableId).Some?
      && CheckBranchPermission(d, user, sourceBranchId, "read")
      && CheckBranchPermission(d, user, d.GetOldestBranchFromTable(d.GetBranch(sourceBranchId).value.tableId).value.id, "write")
    ensures Admit(d, user, sourceBranchId).Success? ==>
      var (source, target) := Admit(d, user, sourceBranchId).value;
      d.GetBranch(sourceBranchId) == Some(source) && source.id == sourceBranchId
      && d.GetOldestBranchFromTable(source.tableId) == Some(target)
  {
  }

  /** The finding, for every store: a source that is the oldest branch of its table, and
      that the user may read and write, is admitted as its own target. */
  lemma AdmitsOldestSource(d: Db, user: Uuid, sourceBranchId: Uuid)
    requires d.GetBranch(sourceBranchId).Some?
    requires d.GetOldestBranchFromTable(d.GetBranch(sourceBranchId).value.tableId) == d.GetBranch(sourceBranchId)
    requires CheckBranchPermission(d, user, sourceBranchId, "read") && CheckBranchPermission(d, user, sourceBranchId, "write")
    ensures var source := d.GetBranch(sourceBranchId).value;
      Admit(d, user, sourceBranchId) == Success((source, source))
  {
  }

  /** Everything after the checks: the merge, then the additions. The store at the end,
      and the message of the step that failed, if one did. */
  function Pipeline(d0: Db, source: BranchRecord, target: Uuid, conflicts: seq<MergeConflict>, resolutions: map<string, string>,
                    sheetOrder: seq<Uuid>, columnOrder: seq<Uuid>): (Db, Option<string>)
    requires WellFormed(conflicts)
  {
    var sourceData, targetData := d0.GetBranchDataForMerge(source.id), d0.GetBranchDataForMerge(target);
    var (d1, e1) := Run(d0, ExecutePlan(sourceData, targetData, conflicts, resolutions, source.createdAt));
    if e1.Some? then (d1, Some("Merge failed: " + ErrorText(e1.value)))
    else NewSheetsStage(d1, source.id, target, sourceData, targetData, sheetOrder, columnOrder)
  }

  /** The new sheets, then the new columns found in the target rows read after them. */
  function NewSheetsStage(d1: Db, source: Uuid, target: Uuid, sourceData: seq<MergeRow>, targetData: seq<MergeRow>,
                          sheetOrder: seq<Uuid>, columnOrder: seq<Uuid>): (Db, Option<string>)
  {
    var (d2, e2) := Run(d1, SheetPlan(sheetOrder, sourceData, targetData, target));
    if e2.Some? then (d2, Some("Failed to create new sheets: " + ErrorText(e2.value)))
    else NewColumnsStage(d2, source, target, sourceData, columnOrder)
  }

  /** The new columns, then their cells found in the target rows read after them. */
  function NewColumnsStage(d2: Db, source: Uuid, target: Uuid, sourceData: seq<MergeRow>, columnOrder: seq<Uuid>): (Db, Option<string>)
  {
    var (d3, e3) := Run(d2, ColumnPlan(columnOrder, sourceData, d2.GetBranchDataForMerge(target)));
    if e3.Some? then (d3, Some("Failed to create new columns: " + ErrorText(e3.value)))
    else CopyStage(d3, source, target, sourceData)
  }

  /** The cells of the new columns, then the deletion of the source, whose failure is
      ignored. */
  function CopyStage(d3: Db, source: Uuid, target: Uuid, sourceData: seq<MergeRow>): (Db, Option<string>)
  {
    var (d4, e4) := Run(d3, CopyPlan(sourceData, d3.GetBranchDataForMerge(target)));
    if e4.Some? then (d4, Some("Failed to copy data to new columns: " + ErrorText(e4.value)))
    else (d4.RemoveBranch(source).0, None)
  }

  /** A merge that completes had a `source` or `target` resolution for every conflict. */
  lemma CompletedMergeResolvedAll(d0: Db, source: BranchRecord, target: Uuid, conflicts: seq<MergeConflict>,
                                  resolutions: map<string, string>, sheetOrder: seq<Uuid>, columnOrder: seq<Uuid>)
    requires WellFormed(conflicts)
    requires Pipeline(d0, source, target, conflicts, resolutions, sheetOrder, columnOrder).1.None?
    ensures forall c :: c in conflicts ==> c.id in resolutions && (resolutions[c.id] == "source" || resolutions[c.id] == "target")
  {
    var sourceData, targetData := d0.GetBranchDataForMerge(source.id), d0.GetBranchDataForMerge(target);
    assert Run(d0, ExecutePlan(sourceData, targetData, conflicts, resolutions, source.createdAt)).1.None?;
    ExecutedMergeResolvedAll(d0, sourceData, targetData, conflicts, resolutions, source.createdAt);
  }

  /** A run of the merge's own writes that completes had a `source` or `target` resolution
      for every conflict. */
  lemma ExecutedMergeResolvedAll(d0: Db, sourceData: seq<MergeRow>, targetData: seq<MergeRow>, conflicts: seq<MergeConflict>,
                                 resolutions: map<string, string>, t: Time)
    requires WellFormed(conflicts)
    requires Run(d0, ExecutePlan(sourceData, targetData, conflicts, resolutions, t)).1.None?
    ensures forall c :: c in conflicts ==> c.id in resolutions && (resolutions[c.id] == "source" || resolutions[c.id] == "target")
  {
    var p1 := ConflictPlan(conflicts, resolutions, sourceData, targetData);
    var p2 := UpdatePlan(sourceData, conflicts, targetData, t);
    RunAppend(d0, p1 + p2, NewDataPlanAsWritten(sourceData, targetData, t));
    RunAppend(d0, p1, p2);
    ResolvedPlanComplete(d0, conflicts, resolutions, sourceData, targetData);
  }

  /** Whether it completes or stops, a merge removes no branch but the source. */
  lemma MergeKeepsOtherBranches(d0: Db, source: BranchRecord, target: Uuid, conflicts: seq<MergeConflict>,
                                resolutions: map<string, string>, sheetOrder: seq<Uuid>, columnOrder: seq<Uuid>, b: BranchRecord)
    requires WellFormed(conflicts)
    requires b in d0.branches && b.id != source.id
    ensures b in Pipeline(d0, source, target, conflicts, resolutions, sheetOrder, columnOrder).0.branches
  {
    var sourceData, targetData := d0.GetBranchDataForMerge(source.id), d0.GetBranchDataForMerge(target);
    var p := ExecutePlan(sourceData, targetData, conflicts, resolutions, source.createdAt);
    RunKeepsBranches(d0, p);
    var d1 := Run(d0, p).0;
    var ps := SheetPlan(sheetOrder, sourceData, targetData, target);
    RunKeepsBranches(d1, ps);
    var d2 := Run(d1, ps).0;
    var pc := ColumnPlan(columnOrder, sourceData, d2.GetBranchDataForMerge(target));
    RunKeepsBranches(d2, pc);
    var d3 := Run(d2, pc).0;
    CopyStageKeeps(d3, source.id, target, sourceData, b);
    assert b in NewColumnsStage(d2, source.id, target, sourceData, columnOrder).0.branches;
    assert b in NewSheetsStage(d1, source.id, target, sourceData, targetData, sheetOrder, columnOrder).0.branches;
  }

  lemma CopyStageKeeps(d3: Db, source: Uuid, target: Uuid, sourceData: seq<MergeRow>, b: BranchRecord)
    requires b in d3.branches && b.id != source
    ensures b in CopyStage(d3, source, target, sourceData).0.branches
  {
    RunKeepsBranches(d3, CopyPlan(sourceData, d3.GetBranchDataForMerge(target)));
  }

  /** The corrected target branch is still there after every merge. */
  lemma MergeKeepsTarget(d0: Db, source: BranchRecord, conflicts: seq<MergeConflict>,
                         resolutions: map<string, string>, sheetOrder: seq<Uuid>, columnOrder: seq<Uuid>)
    requires WellFormed(conflicts)
    requires CorrectedMergeTarget(d0, source).Success?
    ensures var target := CorrectedMergeTarget(d0, source).value;
      target in Pipeline(d0, source, target.id, conflicts, resolutions, sheetOrder, columnOrder).0.branches
  {
    var target := CorrectedMergeTarget(d0, source).value;
    OldestInMember(d0.GetBranchesFromTable(source.tableId));
    MergeKeepsOtherBranches(d0, source, target.id, conflicts, resolutions, sheetOrder, columnOrder, target);
  }

  lemma OldestInMember(bs: seq<BranchRecord>)
    ensures OldestIn(bs).Some? ==> OldestIn(bs).value in bs
  {
  }

  /** `mergeExecuteHandler`. The conflicts are those detection reports, in the order its
      map loops give; `sheetOrder` and `columnOrder` are the orders in which the loops of
      the additions visit their maps. */
  method MergeExecuteHandler(db: Database, user: Uuid, sourceBranchId: Uuid, resolutions: seq<MergeResolution>)
    returns (r: Response<MergeExecuteResponse>, ghost conflicts: seq<MergeConflict>, ghost sheetOrder: seq<Uuid>, ghost columnOrder: seq<Uuid>)
    modifies db
    ensures var sourceData := old(db.Snapshot()).GetBranchDataForMerge(sourceBranchId);
      && IsEnumeration(sheetOrder, Index(sourceData, NewSheetKey).Keys)
      && IsEnumeration(columnOrder, Index(sourceData, NewColumnKey).Keys)
    ensures var d0 := old(db.Snapshot());
      Admit(d0, user, sourceBranchId).Failure? ==>
        var (code, message) := Admit(d0, user, sourceBranchId).error;
        r == RespondError(code, message) && db.Snapshot() == d0
    ensures var d0 := old(db.Snapshot());
      Admit(d0, user, sourceBranchId).Success? ==>
        var (source, target) := Admit(d0, user, sourceBranchId).value;
        var sourceData, targetData := d0.GetBranchDataForMerge(source.id), d0.GetBranchDataForMerge(target.id);
        && (set c | c in conflicts) == Conflicts(sourceData, targetData, source.createdAt)
        && Distinct(conflicts) && WellFormed(conflicts)
        && (|conflicts| != |resolutions| ==> r == RespondError(400, "All conflicts must be resolved") && db.Snapshot() == d0)
        && (|conflicts| == |resolutions| ==>
              var (d, e) := Pipeline(d0, source, target.id, conflicts, ResolutionMap(resolutions), sheetOrder, columnOrder);
              && db.Snapshot() == d
              && (e.Some? ==> r == RespondError(500, e.value))
              && (e.None? ==> r == Respond(200, MergeExecuteResponse(true, "Merge completed successfully and source branch deleted", target.id))))
  {
    ghost var d0 := db.Snapshot();
    var sourceData0 := db.Snapshot().GetBranchDataForMerge(sourceBranchId);
    sheetOrder := Enumerate(Index(sourceData0, NewSheetKey).Keys);
    columnOrder := Enumerate(Index(sourceData0, NewColumnKey).Keys);
    conflicts := [];
    var sourceBranch := db.Snapshot().GetBranch(sourceBranchId);
    if sourceBranch.None? {
      return RespondError(404, "Source branch not found"), conflicts, sheetOrder, columnOrder;
    }
    var source := sourceBranch.value;
    var targetBranch := db.Snapshot().GetOldestBranchFromTable(source.tableId);
    if targetBranch.None? {
      return RespondError(500, "Could not find target branch (oldest branch in table)"), conflicts, sheetOrder, columnOrder;
    }
    var target := targetBranch.value;
    if !CheckBranchPermission(db.Snapshot(), user, sourceBranchId, "read") {
      return RespondError(403, "No read permission on source branch"), conflicts, sheetOrder, columnOrder;
    }
    if !CheckBranchPermission(db.Snapshot(), user, target.id, "write") {
      return RespondError(403, "No write permission on target branch"), conflicts, sheetOrder, columnOrder;
    }
    assert source.id == sourceBranchId;
    var sourceData := db.Snapshot().GetBranchDataForMerge(sourceBranchId);
    var targetData := db.Snapshot().GetBranchDataForMerge(target.id);
    var detected := DetectMergeConflicts(sourceData, targetData, source.createdAt);
    conflicts := detected;
    DetectedWellFormed(sourceData, targetData, source.createdAt, detected);
    var resolutionMap := BuildResolutionMap(resolutions);
    if |detected| != |resolutions| {
      return RespondError(400, "All conflicts must be resolved"), conflicts, sheetOrder, columnOrder;
    }
    r, sheetOrder, columnOrder := MergeSteps(db, source, target.id, sourceData, targetData, detected, resolutionMap);
  }

  /** The writes after the checks, as `Pipeline` describes them. */
  method MergeSteps(db: Database, source: BranchRecord, target: Uuid, sourceData: seq<MergeRow>, targetData: seq<MergeRow>,
                    conflicts: seq<MergeConflict>, resolutions: map<string, string>)
    returns (r: Response<MergeExecuteResponse>, ghost sheetOrder: seq<Uuid>, ghost columnOrder: seq<Uuid>)
    requires WellFormed(conflicts)
    requires sourceData == db.Snapshot().GetBranchDataForMerge(source.id) && targetData == db.Snapshot().GetBranchDataForMerge(target)
    modifies db
    ensures IsEnumeration(sheetOrder, Index(sourceData, NewSheetKey).Keys)
    ensures IsEnumeration(columnOrder, Index(sourceData, NewColumnKey).Keys)
    ensures var (d, e) := Pipeline(old(db.Snapshot()), source, target, conflicts, resolutions, sheetOrder, columnOrder);
      && db.Snapshot() == d
      && (e.Some? ==> r == RespondError(500, e.value))
      && (e.None? ==> r == Respond(200, MergeExecuteResponse(true, "Merge completed successfully and source branch deleted", target)))
  {
    sheetOrder := Enumerate(Index(sourceData, NewSheetKey).Keys);
    columnOrder := Enumerate(Index(sourceData, NewColumnKey).Keys);
    var err := ExecuteMerge(db, sourceData, targetData, conflicts, resolutions, source.createdAt);
    if err.Some? {
      return RespondError(500, "Merge failed: " + ErrorText(err.value)), sheetOrder, columnOrder;
    }
    var msg;
    msg, sheetOrder, columnOrder := NewSheetsSteps(db, source.id, target, sourceData, targetData);
    if msg.Some? {
      return RespondError(500, msg.value), sheetOrder, columnOrder;
    }
    r := Respond(200, MergeExecuteResponse(true, "Merge completed successfully and source branch deleted", target));
  }

  /** The new sheets and what follows them, as `NewSheetsStage` describes them. */
  method NewSheetsSteps(db: Database, source: Uuid, target: Uuid, sourceData: seq<MergeRow>, targetData: seq<MergeRow>)
    returns (msg: Option<string>, ghost sheetOrder: seq<Uuid>, ghost columnOrder: seq<Uuid>)
    modifies db
    ensures IsEnumeration(sheetOrder, Index(sourceData, NewSheetKey).Keys)
    ensures IsEnumeration(columnOrder, Index(sourceData, NewColumnKey).Keys)
    ensures (db.Snapshot(), msg) == NewSheetsStage(old(db.Snapshot()), source, target, sourceData, targetData, sheetOrder, columnOrder)
  {
    var err;
    err, sheetOrder := CreateNewSheets(db, sourceData, targetData, target);
    columnOrder := Enumerate(Index(sourceData, NewColumnKey).Keys);
    if err.Some? {
      return Some("Failed to create new sheets: " + ErrorText(err.value)), sheetOrder, columnOrder;
    }
    msg, columnOrder := NewColumnsSteps(db, source, target, sourceData);
  }

  /** The new columns and what follows them, as `NewColumnsStage` describes them. */
  method NewColumnsSteps(db: Database, source: Uuid, target: Uuid, sourceData: seq<MergeRow>)
    returns (msg: Option<string>, ghost columnOrder: seq<Uuid>)
    modifies db
    ensures IsEnumeration(columnOrder, Index(sourceData, NewColumnKey).Keys)
    ensures (db.Snapshot(), msg) == NewColumnsStage(old(db.Snapshot()), source, target, sourceData, columnOrder)
  {
    var refreshed := db.Snapshot().GetBranchDataForMerge(target);
    var err;
    err, columnOrder := CreateNewColumns(db, sourceData, refreshed);
    if err.Some? {
      return Some("Failed to create new columns: " + ErrorText(err.value)), columnOrder;
    }
    msg := CopySteps(db, source, target, sourceData);
  }

  /** The cells of the new columns, then the deletion of the source, as `CopyStage`
      describes them. */
  method CopySteps(db: Database, source: Uuid, target: Uuid, sourceData: seq<MergeRow>) returns (msg: Option<string>)
    modifies db
    ensures (db.Snapshot(), msg) == CopyStage(old(db.Snapshot()), source, target, sourceData)
  {
    var err := CopyDataToNewColumns(db, sourceData, target);
    if err.Some? {
      return Some("Failed to copy data to new columns: " + ErrorText(err.value));
    }
    var _ := db.DeleteBranch(source);
    msg := None;
  }
}

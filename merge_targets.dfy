/** The branches a user may merge from, and the branch every merge goes into
    (backend/get_merge_targets.go). */
module MergeTargets {
  import opened Wrappers
  import opened Store
  import opened Permissions

  datatype MergeTarget = MergeTarget(id: Uuid, name: string)

  datatype MergeTargetsResponse = MergeTargetsResponse(validTargets: seq<MergeTarget>, targetBranch: MergeTarget)

  /** Whether `b` is offered as a merge source: it is not the merge target and the user may
      read it. */
  predicate Offered(db: Db, user: Uuid, oldest: Uuid, b: BranchRecord)
  {
    b.id != oldest && CheckBranchPermission(db, user, b.id, "read")
  }

  /** The offered branches of `bs`, in order. */
  function ValidSources(db: Db, user: Uuid, oldest: Uuid, bs: seq<BranchRecord>): seq<MergeTarget>
  {
    if bs == [] then []
    else
      var b := bs[|bs| - 1];
      ValidSources(db, user, oldest, bs[..|bs| - 1]) + (if Offered(db, user, oldest, b) then [MergeTarget(b.id, b.name)] else [])
  }

  /** A merge target is listed exactly when it comes from an offered branch. */
  lemma {:induction false} ValidSourcesMembers(db: Db, user: Uuid, oldest: Uuid, bs: seq<BranchRecord>, t: MergeTarget)
    ensures t in ValidSources(db, user, oldest, bs) <==>
      exists b :: b in bs && Offered(db, user, oldest, b) && t == MergeTarget(b.id, b.name)
  {
    if bs != [] {
      var init := bs[..|bs| - 1];
      ValidSourcesMembers(db, user, oldest, init, t);
      assert forall b :: b in bs <==> b in init || b == bs[|bs| - 1];
    }
  }

  /** The merge target itself is never offered as a source. */
  lemma OldestNeverListed(db: Db, user: Uuid, oldest: Uuid, bs: seq<BranchRecord>)
    ensures forall t :: t in ValidSources(db, user, oldest, bs) ==> t.id != oldest
  {
    forall t | t in ValidSources(db, user, oldest, bs)
      ensures t.id != oldest
    {
      ValidSourcesMembers(db, user, oldest, bs, t);
    }
  }

  /** The list keeps the order of the branches: listing two runs of branches lists each run
      in turn. */
  lemma {:induction false} ValidSourcesAppend(db: Db, user: Uuid, oldest: Uuid, a: seq<BranchRecord>, b: seq<BranchRecord>)
    ensures ValidSources(db, user, oldest, a + b) == ValidSources(db, user, oldest, a) + ValidSources(db, user, oldest, b)
  {
    if b != [] {
      assert (a + b)[..|a + b| - 1] == a + b[..|b| - 1];
      ValidSourcesAppend(db, user, oldest, a, b[..|b| - 1]);
    } else {
      assert a + b == a;
    }
  }

  /** The filtering loop over the table's branches. */
  method CollectSources(db: Db, user: Uuid, oldest: Uuid, allBranches: seq<BranchRecord>) returns (validSources: seq<MergeTarget>)
    ensures validSources == ValidSources(db, user, oldest, allBranches)
  {
    validSources := [];
    for i := 0 to |allBranches|
      invariant validSources == ValidSources(db, user, oldest, allBranches[..i])
    {
      assert allBranches[..i + 1][..i] == allBranches[..i];
      var branch := allBranches[i];
      if branch.id == oldest {
        continue;
      }
      if !CheckBranchPermission(db, user, branch.id, "read") {
        continue;
      }
      validSources := validSources + [MergeTarget(branch.id, branch.name)];
    }
    assert allBranches[..|allBranches|] == allBranches;
  }

  /** `getMergeTargetsHandler`. `tableIdParam` is the raw query parameter and `tableId` what
      parsing it as a UUID gave. */
  method GetMergeTargets(db: Db, user: Uuid, tableIdParam: string, tableId: Option<Uuid>) returns (r: Response<MergeTargetsResponse>)
    ensures tableIdParam == "" ==> r == RespondError(400, "Missing table_id parameter")
    ensures tableIdParam != "" && tableId.None? ==> r == RespondError(400, "Invalid table_id format")
    ensures tableIdParam != "" && tableId.Some? ==>
      var oldest := db.GetOldestBranchFromTable(tableId.value);
      && (oldest.None? ==> r == RespondError(500, "Could not find oldest branch in table"))
      && (oldest.Some? && !CheckBranchPermission(db, user, oldest.value.id, "write") ==>
            r == RespondError(403, "No write permission on target branch"))
      && (oldest.Some? && CheckBranchPermission(db, user, oldest.value.id, "write") ==>
            r == Respond(200, MergeTargetsResponse(
                   ValidSources(db, user, oldest.value.id, db.GetBranchesFromTable(tableId.value)),
                   MergeTarget(oldest.value.id, oldest.value.name))))
  {
    if tableIdParam == "" {
      return RespondError(400, "Missing table_id parameter");
    }
    if tableId.None? {
      return RespondError(400, "Invalid table_id format");
    }
    var allBranches := db.GetBranchesFromTable(tableId.value);
    var oldestBranch := db.GetOldestBranchFromTable(tableId.value);
    if oldestBranch.None? {
      return RespondError(500, "Could not find oldest branch in table");
    }
    if !CheckBranchPermission(db, user, oldestBranch.value.id, "write") {
      return RespondError(403, "No write permission on target branch");
    }
    var validSources := CollectSources(db, user, oldestBranch.value.id, allBranches);
    r := Respond(200, MergeTargetsResponse(validSources, MergeTarget(oldestBranch.value.id, oldestBranch.value.name)));
  }

  /** A successful answer offers only readable branches of the table other than the
      target, and names as target the table's oldest branch. */
  lemma GetMergeTargetsSources(db: Db, user: Uuid, table: Uuid, t: MergeTarget)
    requires db.GetOldestBranchFromTable(table).Some?
    ensures var oldest := db.GetOldestBranchFromTable(table).value;
      t in ValidSources(db, user, oldest.id, db.GetBranchesFromTable(table)) ==>
        t.id != oldest.id && CheckBranchPermission(db, user, t.id, "read")
        && exists b :: b in db.branches && b.tableId == table && b.id == t.id && b.name == t.name
  {
    var oldest := db.GetOldestBranchFromTable(table).value;
    ValidSourcesMembers(db, user, oldest.id, db.GetBranchesFromTable(table), t);
  }
}

/** Table roles and the checks built on them (backend/permissions.go and
    backend/check_branch_premission.go). A user's role on a table is the `permission`
    of their user/table row; branches inherit the role of their table. */
module Permissions {
  import opened Wrappers
  import opened Store

  const OwnerPermission: string := "owner"
  const ContributorPermission: string := "contributor"

  /** A role is recognised when it is one of the two named roles. */
  predicate IsRole(s: string) { s == OwnerPermission || s == ContributorPermission }

  /** The rank of a role, lower meaning more powerful; `(-1, false)` for anything else. */
  function PermissionWeight(s: string): (r: (int, bool))
    ensures r.1 <==> IsRole(s)
    ensures r.1 ==> 0 <= r.0 <= 1
    ensures !r.1 ==> r.0 == -1
    ensures r.1 ==> (r.0 == 0 <==> s == OwnerPermission)
  {
    if s == OwnerPermission then (0, true)
    else if s == ContributorPermission then (1, true)
    else (-1, false)
  }

  /** Whether `user` may hand out role `perm` on `table`: the requested role must be
      recognised, the user must have a recognised role on the table, and that role must
      rank no lower than the one being granted. */
  function CanAssignPermission(db: Db, user: Uuid, table: Uuid, perm: string): (r: bool)
    ensures !IsRole(perm) ==> !r
    ensures db.GetUserTables(user, table).None? ==> !r
    ensures r <==> IsRole(perm) && db.GetUserTables(user, table).Some?
                   && IsRole(db.GetUserTables(user, table).value)
                   && PermissionWeight(db.GetUserTables(user, table).value).0 <= PermissionWeight(perm).0
  {
    var (receiverWeight, ok) := PermissionWeight(perm);
    if !ok then false
    else
      match db.GetUserTables(user, table)
      case None => false
      case Some(granter) =>
        var (granterWeight, ok2) := PermissionWeight(granter);
        !(!ok2 || granterWeight > receiverWeight)
  }

  /** The rule as roles: an owner may grant either role, a contributor only the contributor
      role, and nobody else may grant anything. */
  lemma CanAssignPermissionByRole(db: Db, user: Uuid, table: Uuid, perm: string)
    ensures CanAssignPermission(db, user, table, perm) <==>
      (db.GetUserTables(user, table) == Some(OwnerPermission) && IsRole(perm))
      || (db.GetUserTables(user, table) == Some(ContributorPermission) && perm == ContributorPermission)
  {
  }

  /** Whether `user` may perform `permType` on the branch: owners may do anything,
      contributors may read and write, and a missing branch or a user without a role on
      its table may do nothing. */
  function CheckBranchPermission(db: Db, user: Uuid, branch: Uuid, permType: string): (r: bool)
    ensures db.GetBranch(branch).None? ==> !r
    ensures r ==> db.GetBranch(branch).Some? && db.GetUserTables(user, db.GetBranch(branch).value.tableId).Some?
  {
    match db.GetBranch(branch)
    case None => false
    case Some(b) =>
      match db.GetUserTables(user, b.tableId)
      case None => false
      case Some(role) =>
        if role == OwnerPermission then true
        else role == ContributorPermission && (permType == "read" || permType == "write")
  }

  /** The branch check as roles: granted exactly to owners of the branch's table for every
      kind of access, and to its contributors for reading and writing. */
  lemma CheckBranchPermissionByRole(db: Db, user: Uuid, branch: Uuid, permType: string)
    ensures CheckBranchPermission(db, user, branch, permType) <==>
      db.GetBranch(branch).Some? &&
      var role := db.GetUserTables(user, db.GetBranch(branch).value.tableId);
      role == Some(OwnerPermission)
      || (role == Some(ContributorPermission) && (permType == "read" || permType == "write"))
  {
  }

  /** Whoever may assign a role may also write every branch of the table. */
  lemma AssignerMayWrite(db: Db, user: Uuid, branch: Uuid, perm: string)
    requires db.GetBranch(branch).Some?
    requires CanAssignPermission(db, user, db.GetBranch(branch).value.tableId, perm)
    ensures CheckBranchPermission(db, user, branch, "write")
  {
  }

  /** The branches with the protection flag of branch `id` set to `flag`. */
  function WithProtection(bs: seq<BranchRecord>, id: Uuid, flag: bool): (r: seq<BranchRecord>)
    ensures |r| == |bs|
    ensures forall i :: 0 <= i < |bs| ==> r[i] == if bs[i].id == id then bs[i].(isProtected := flag) else bs[i]
  {
    seq(|bs|, i requires 0 <= i < |bs| => if bs[i].id == id then bs[i].(isProtected := flag) else bs[i])
  }

  /** Looking a branch up in the re-flagged list finds the re-flagged record. */
  lemma {:induction false} FindWithProtection(bs: seq<BranchRecord>, id: Uuid, target: Uuid, flag: bool)
    ensures BranchById(WithProtection(bs, id, flag), target)
         == match BranchById(bs, target)
            case None => None
            case Some(b) => Some(if b.id == id then b.(isProtected := flag) else b)
  {
    if bs != [] {
      assert WithProtection(bs, id, flag)[1..] == WithProtection(bs[1..], id, flag);
      FindWithProtection(bs[1..], id, target, flag);
    }
  }

  /** Branch protection plays no part in the permission check. */
  lemma CheckBranchPermissionIgnoresProtection(db: Db, user: Uuid, branch: Uuid, permType: string, id: Uuid, flag: bool)
    ensures CheckBranchPermission(db.(branches := WithProtection(db.branches, id, flag)), user, branch, permType)
         == CheckBranchPermission(db, user, branch, permType)
  {
    var flagged := db.(branches := WithProtection(db.branches, id, flag));
    FindWithProtection(db.branches, id, branch, flag);
    PermissionByTable(flagged, db, user, branch, permType);
  }

  /** The branch check reads only the branch's table and the user's roles. */
  lemma PermissionByTable(db1: Db, db2: Db, user: Uuid, branch: Uuid, permType: string)
    requires db1.userTables == db2.userTables
    requires db1.GetBranch(branch).None? == db2.GetBranch(branch).None?
    requires db1.GetBranch(branch).Some? ==> db1.GetBranch(branch).value.tableId == db2.GetBranch(branch).value.tableId
    ensures CheckBranchPermission(db1, user, branch, permType) == CheckBranchPermission(db2, user, branch, permType)
  {
  }
}

/** The merge dialog of the client (frontend/src/mergeModal.tsx): the user picks a branch to
    merge into the current one, previews the conflicts, picks a side for each and runs the
    merge. The answers of the two requests are parameters of the handlers. */
module MergeModal {
  import opened Wrappers
  import opened Text
  import MergeHandler

  /** A branch as the table lists it; ids are the text of the server's uuids. */
  datatype BranchIdName = BranchIdName(id: string, name: string)

  /** A conflict as the preview lists it; the dialog uses only its id, the other fields are
      shown and not modelled. */
  datatype MergeConflict = MergeConflict(id: string)

  /** How a request ended: the decoded body of a successful answer, an answer with another
      status, or a thrown value, with its message when it is an `Error`. */
  datatype Fetched<T> = Ok(body: T) | Status(code: int) | Thrown(message: Option<string>)

  datatype Step = Select | Conflicts | NoConflicts | Merging

  /** The branches of the table other than the current one, in order; none without a
      table. */
  function AvailableBranches(table: Option<seq<BranchIdName>>, current: Option<string>): (r: seq<BranchIdName>)
    ensures forall b :: b in r <==> table.Some? && b in table.value && (current.None? || b.id != current.value)
    ensures table.Some? ==> |r| <= |table.value|
  {
    if table.None? then [] else Others(table.value, current)
  }

  function Others(branches: seq<BranchIdName>, current: Option<string>): (r: seq<BranchIdName>)
    ensures forall b :: b in r <==> b in branches && (current.None? || b.id != current.value)
    ensures |r| <= |branches|
    decreases |branches|
  {
    if branches == [] then []
    else
      var rest := Others(branches[1..], current);
      assert forall b :: b in branches <==> b == branches[0] || b in branches[1..];
      if current.None? || branches[0].id != current.value then [branches[0]] + rest else rest
  }

  /** The branches kept by one more branch at the end of the list are those kept before it,
      followed by it unless it is the current one: the filter keeps the table's order. */
  lemma {:induction false} OthersAppend(branches: seq<BranchIdName>, b: BranchIdName, current: Option<string>)
    ensures Others(branches + [b], current)
      == Others(branches, current) + (if current.None? || b.id != current.value then [b] else [])
    decreases |branches|
  {
    if branches == [] {
      assert [b][1..] == [];
    } else {
      assert (branches + [b])[1..] == branches[1..] + [b];
      OthersAppend(branches[1..], b, current);
    }
  }

  /** A resolution is set when its entry exists and is not the empty string. */
  predicate Chosen(resolutions: map<string, string>, id: string)
  {
    id in resolutions && resolutions[id] != ""
  }

  /** `allConflictsResolved`: every conflict of the list has a side chosen, which holds of
      the empty list. */
  function AllConflictsResolved(conflicts: seq<MergeConflict>, resolutions: map<string, string>): (r: bool)
    ensures r <==> forall c :: c in conflicts ==> Chosen(resolutions, c.id)
    decreases |conflicts|
  {
    if conflicts == [] then true
    else
      assert forall c :: c in conflicts <==> c == conflicts[0] || c in conflicts[1..];
      Chosen(resolutions, conflicts[0].id) && AllConflictsResolved(conflicts[1..], resolutions)
  }

  /** The resolutions sent with the merge: one per conflict, in conflict order, with the
      chosen side or, when none is chosen, "target". */
  function MergeResolutions(conflicts: seq<MergeConflict>, resolutions: map<string, string>): (r: seq<MergeHandler.MergeResolution>)
    ensures |r| == |conflicts|
    ensures forall i :: 0 <= i < |r| ==> r[i].conflictId == conflicts[i].id
    ensures forall i :: 0 <= i < |r| ==>
      r[i].chosenSource == if Chosen(resolutions, conflicts[i].id) then resolutions[conflicts[i].id] else "target"
    decreases |conflicts|
  {
    if conflicts == [] then []
    else
      var id := conflicts[0].id;
      var rest := MergeResolutions(conflicts[1..], resolutions);
      [MergeHandler.MergeResolution(id, if Chosen(resolutions, id) then resolutions[id] else "target")] + rest
  }

  /** Every side a resolution map holds is one of those its resolutions chose. */
  lemma {:induction false} ResolutionMapChoices(sent: seq<MergeHandler.MergeResolution>)
    requires forall i :: 0 <= i < |sent| ==> sent[i].chosenSource == "source" || sent[i].chosenSource == "target"
    ensures forall id :: id in MergeHandler.ResolutionMap(sent) ==>
      MergeHandler.ResolutionMap(sent)[id] == "source" || MergeHandler.ResolutionMap(sent)[id] == "target"
  {
    if sent != [] {
      ResolutionMapChoices(sent[..|sent| - 1]);
    }
  }

  /** What the server makes of the resolutions the dialog sends: as many resolutions as
      conflicts, so the count check passes, and every conflict resolved, to the side the user
      chose or else to "target". */
  lemma SentResolutionsResolveAll(conflicts: seq<MergeConflict>, resolutions: map<string, string>)
    requires forall i, j :: 0 <= i < j < |conflicts| ==> conflicts[i].id != conflicts[j].id
    ensures var sent := MergeResolutions(conflicts, resolutions);
      var m := MergeHandler.ResolutionMap(sent);
      |sent| == |conflicts|
      && forall c :: c in conflicts ==>
           c.id in m && m[c.id] == if Chosen(resolutions, c.id) then resolutions[c.id] else "target"
  {
    var m := MergeHandler.ResolutionMap(MergeResolutions(conflicts, resolutions));
    forall c | c in conflicts
      ensures c.id in m && m[c.id] == if Chosen(resolutions, c.id) then resolutions[c.id] else "target"
    {
      var i :| 0 <= i < |conflicts| && conflicts[i] == c;
      SentResolvesAt(conflicts, resolutions, i);
    }
  }

  /** With the dialog only ever choosing "source" or "target", the server finds no invalid
      resolution. */
  lemma SentResolutionsValid(conflicts: seq<MergeConflict>, resolutions: map<string, string>)
    requires forall id :: id in resolutions ==> resolutions[id] == "source" || resolutions[id] == "target"
    ensures var m := MergeHandler.ResolutionMap(MergeResolutions(conflicts, resolutions));
      forall id :: id in m ==> m[id] == "source" || m[id] == "target"
  {
    ResolutionMapChoices(MergeResolutions(conflicts, resolutions));
  }

  /** The server's map resolves conflict `i` as the dialog sent it. */
  lemma SentResolvesAt(conflicts: seq<MergeConflict>, resolutions: map<string, string>, i: nat)
    requires forall i, j :: 0 <= i < j < |conflicts| ==> conflicts[i].id != conflicts[j].id
    requires i < |conflicts|
    ensures var m := MergeHandler.ResolutionMap(MergeResolutions(conflicts, resolutions));
      var id := conflicts[i].id;
      id in m && m[id] == if Chosen(resolutions, id) then resolutions[id] else "target"
  {
    var sent := MergeResolutions(conflicts, resolutions);
    assert sent[i] in sent;
    MergeHandler.ResolutionMapLastWins(sent, i);
  }

  /** Choosing a non-empty side never makes a fully resolved list unresolved, and resolving
      the last open conflict completes it. */
  lemma ResolveKeepsResolved(conflicts: seq<MergeConflict>, resolutions: map<string, string>, id: string, source: string)
    requires source != ""
    requires forall c :: c in conflicts && c.id != id ==> Chosen(resolutions, c.id)
    ensures AllConflictsResolved(conflicts, resolutions[id := source])
  {
  }

  /** The state of the dialog. */
  class Dialog {
    var selectedBranch: string
    var conflicts: seq<MergeConflict>
    var resolutions: map<string, string>
    var loading: bool
    var step: Step
    var error: string
    var open: bool

    /** The no-conflicts step shows only after a preview that found none. */
    predicate Valid()
      reads this
    {
      step == NoConflicts ==> conflicts == []
    }

    /** The execute button of the step shown is enabled. */
    predicate CanExecute()
      reads this
    {
      !loading && (step == NoConflicts || (step == Conflicts && AllConflictsResolved(conflicts, resolutions)))
    }

    constructor ()
      ensures Valid()
      ensures selectedBranch == "" && conflicts == [] && resolutions == map[]
      ensures !loading && step == Select && error == "" && open
    {
      selectedBranch, conflicts, resolutions := "", [], map[];
      loading, step, error, open := false, Select, "", true;
    }

    /** Picking a branch in the drop-down. */
    method SelectBranch(id: string)
      modifies this
      ensures selectedBranch == id
      ensures conflicts == old(conflicts) && resolutions == old(resolutions) && loading == old(loading)
      ensures step == old(step) && error == old(error) && open == old(open)
    {
      selectedBranch := id;
    }

    /** `handlePreview`: without a selected branch or a current sheet nothing happens;
        otherwise the preview of merging the selected branch into the current one is asked for
        (the request is the pair of branch ids), and its answer either sets the conflicts, a
        missing list read as empty, and moves to the matching step, or sets the error. */
    method HandlePreview(currentBranch: Option<string>, answer: Fetched<Option<seq<MergeConflict>>>)
      returns (request: Option<(string, string)>)
      requires Valid()
      modifies this
      ensures Valid()
      ensures selectedBranch == "" || currentBranch.None? ==>
        request.None? && conflicts == old(conflicts) && step == old(step) && error == old(error)
        && loading == old(loading)
      ensures selectedBranch == old(selectedBranch) && resolutions == old(resolutions) && open == old(open)
      ensures selectedBranch != "" && currentBranch.Some? ==>
        request == Some((selectedBranch, currentBranch.value)) && !loading
        && match answer
           case Ok(list) =>
             var found := list.GetOr([]);
             conflicts == found && error == ""
             && step == (if found == [] then NoConflicts else Conflicts)
           case Status(code) =>
             conflicts == old(conflicts) && step == old(step) && error == "Failed to preview merge: " + IntText(code)
           case Thrown(message) =>
             conflicts == old(conflicts) && step == old(step) && error == message.GetOr("Unknown error occurred")
    {
      if selectedBranch == "" || currentBranch.None? {
        return None;
      }
      request := Some((selectedBranch, currentBranch.value));
      loading := true;
      error := "";
      match answer {
        case Ok(list) =>
          var found := if list.Some? then list.value else [];
          conflicts := found;
          if |found| == 0 {
            step := NoConflicts;
          } else {
            step := Conflicts;
          }
        case Status(code) =>
          error := "Failed to preview merge: " + IntText(code);
        case Thrown(message) =>
          error := message.GetOr("Unknown error occurred");
      }
      loading := false;
    }

    /** `handleMerge`: without a selected branch or a current sheet nothing happens;
        otherwise the dialog enters the merging step and sends the selected branch as source,
        the current branch as target and one resolution per conflict. A successful answer
        closes the dialog; a failed one sets the error and returns to the conflicts step. */
    method HandleMerge(currentBranch: Option<string>, answer: Fetched<()>)
      returns (request: Option<(string, string, seq<MergeHandler.MergeResolution>)>)
      requires Valid()
      modifies this
      ensures Valid()
      ensures selectedBranch == old(selectedBranch) && conflicts == old(conflicts) && resolutions == old(resolutions)
      ensures selectedBranch == "" || currentBranch.None? ==>
        request.None? && step == old(step) && error == old(error) && loading == old(loading) && open == old(open)
      ensures selectedBranch != "" && currentBranch.Some? ==>
        request == Some((selectedBranch, currentBranch.value, MergeResolutions(conflicts, resolutions))) && !loading
        && match answer
           case Ok(_) => step == Merging && error == "" && !open
           case Status(code) =>
             step == Conflicts && error == "Failed to execute merge: " + IntText(code) && open == old(open)
           case Thrown(message) =>
             step == Conflicts && error == message.GetOr("Failed to merge branches") && open == old(open)
    {
      if selectedBranch == "" || currentBranch.None? {
        return None;
      }
      step := Merging;
      loading := true;
      error := "";
      request := Some((selectedBranch, currentBranch.value, MergeResolutions(conflicts, resolutions)));
      match answer {
        case Ok(_) =>
          open := false;
        case Status(code) =>
          error := "Failed to execute merge: " + IntText(code);
          step := Conflicts;
        case Thrown(message) =>
          error := message.GetOr("Failed to merge branches");
          step := Conflicts;
      }
      loading := false;
    }

    /** `handleResolution`: the side chosen for one conflict; every other entry stays. */
    method HandleResolution(conflictId: string, source: string)
      requires Valid()
      modifies this
      ensures Valid()
      ensures conflictId in resolutions && resolutions[conflictId] == source
      ensures forall id :: id != conflictId ==>
        (id in resolutions <==> id in old(resolutions)) && (id in resolutions ==> resolutions[id] == old(resolutions)[id])
      ensures selectedBranch == old(selectedBranch) && conflicts == old(conflicts) && loading == old(loading)
      ensures step == old(step) && error == old(error) && open == old(open)
    {
      resolutions := resolutions[conflictId := source];
    }

    /** The Back buttons of the conflicts and no-conflicts steps. */
    method Back()
      requires Valid()
      modifies this
      ensures Valid()
      ensures step == Select
      ensures selectedBranch == old(selectedBranch) && conflicts == old(conflicts) && resolutions == old(resolutions)
      ensures loading == old(loading) && error == old(error) && open == old(open)
    {
      step := Select;
    }

    /** A click outside the dialog, or Escape, closes it. */
    method Close()
      modifies this
      ensures !open
      ensures selectedBranch == old(selectedBranch) && conflicts == old(conflicts) && resolutions == old(resolutions)
      ensures loading == old(loading) && step == old(step) && error == old(error)
    {
      open := false;
    }
  }

  /** An enabled execute button sends the user's own choice for every conflict: the default
      "target" is used only for conflicts with no choice, and there are none. */
  lemma ExecuteSendsChoices(d: Dialog)
    requires d.Valid() && d.CanExecute()
    ensures forall i :: 0 <= i < |d.conflicts| ==>
      MergeResolutions(d.conflicts, d.resolutions)[i].chosenSource == d.resolutions[d.conflicts[i].id]
  {
    forall i | 0 <= i < |d.conflicts|
      ensures MergeResolutions(d.conflicts, d.resolutions)[i].chosenSource == d.resolutions[d.conflicts[i].id]
    {
      assert d.conflicts[i] in d.conflicts;
    }
  }
}

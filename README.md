# Branches and merges of a spreadsheet backend, modelled in Dafny

This project models the branch engine of a multi-user spreadsheet service (a Go backend and a
React frontend). Its tables hold branches, branches hold sheets, sheets hold columns, and
columns hold indexed cells. The model covers:

- creating a branch as a transactional copy of its table's oldest branch;
- switching to a branch, which opens its first sheet or creates a default map sheet;
- reading a sheet and its columns, and exporting a branch as JSON rows;
- the permission rules for roles and branches;
- the `Bearer` and `ApiKey` header extractors;
- merging: listing merge sources, detecting conflicts, executing a merge with the user's
  resolutions, and adding the sheets, columns and cells the source branch made itself;
- the two frontend dialogs that drive merges and add sheet names.

The store is a `Store.Database` class whose records are sequences of branch, sheet, column,
cell and permission rows. Each write method is proved equal to a pure effect function on the
`Store.Db` snapshot. Writes can fail: a fault set names the calls that fail. The merge
algorithms are proved against plans, which are sequences of writes run by
`MergePlan.Run`. Loops over Go maps are proved for every iteration order: the order is a ghost
enumeration of the map's keys. Each handler returns a `Wrappers.Response` with the status code
and the handler's own message text that the source sends, in the order the source checks.

## Model

| member | source | states |
|---|---|---|
| Auth.HeaderCredential | backend/internal/auth/get_bearer_token.go:9-16 | An empty header is an error; otherwise the result is the header with one leading scheme word removed and white space trimmed, so it has no white space at its ends |
| Auth.GetBearerToken | backend/internal/auth/get_bearer_token.go:9-16 | The bearer extractor is the shared rule with the scheme `Bearer` |
| Auth.GetApiKey | backend/internal/auth/get_api_key.go:9-16 | The API-key extractor is the shared rule with the scheme `ApiKey` |
| Auth.HeaderCredentialRoundTrip | backend/internal/auth/get_bearer_token.go:14-15 | The scheme, a blank and a token without white space at its ends give back that token |
| Auth.BearerRoundTrip | backend/internal/auth/get_bearer_token.go:14-15 | The header `Bearer <token>` yields the token |
| Auth.ApiKeyRoundTrip | backend/internal/auth/get_api_key.go:14-15 | The header `ApiKey <key>` yields the key |
| Auth.BearerAloneIsEmpty | backend/internal/auth/get_bearer_token.go:11-15 | The bare word `Bearer` yields the empty token, not an error |
| Auth.BearerRemovedOnce | backend/internal/auth/get_bearer_token.go:14 | Only one leading `Bearer` is removed |
| Auth.OtherSchemeOnlyTrimmed | backend/internal/auth/get_bearer_token.go:14-15 | A header without the scheme word is only trimmed |
| Permissions.PermissionWeight | backend/permissions.go:13-21 | Owner ranks 0, contributor ranks 1, anything else gives (-1, false); the flag holds exactly for the two roles |
| Permissions.CanAssignPermission | backend/permissions.go:23-44 | A user may grant a role iff the role is recognised, the user has a recognised role on the table, and that role ranks no lower |
| Permissions.CanAssignPermissionByRole | backend/permissions.go:23-44 | Owners may grant both roles, contributors only the contributor role, everyone else nothing |
| Permissions.CheckBranchPermission | backend/check_branch_premission.go:10-33 | Access is denied for a missing branch or a user with no role on its table; owners get everything; contributors get read and write only |
| Permissions.CheckBranchPermissionByRole | backend/check_branch_premission.go:24-32 | The branch check stated per role, in both directions |
| Permissions.AssignerMayWrite | backend/permissions.go:38-43 | Whoever may assign a role may also write every branch of the table |
| Permissions.CheckBranchPermissionIgnoresProtection | backend/check_branch_premission.go:10-33 | Changing a branch's protection flag never changes the permission check |
| Columns.ColumnOrder | backend/get_columns.go:39-48 | Each column id of the rows appears once, and only ids of the rows appear |
| Columns.IndexColumns | backend/get_columns.go:33-59 | The row loop builds a map holding, for each id, that column as the rows describe it, plus the ids in first-seen order |
| Columns.GetColumns | backend/get_columns.go:27-71 | The result is the columns grouped from the rows, in first-appearance order |
| Columns.GroupOnePerColumn | backend/get_columns.go:39-48 | Each distinct column id yields exactly one column |
| Columns.ColumnOrderByFirstRow | backend/get_columns.go:47 | Columns come out in the order of their first rows |
| Columns.GroupHeaderAndData | backend/get_columns.go:40-58 | A column's name, type and required flag come from its first row; its data are its rows' cells, in row order |
| Columns.GroupKeepsAllData | backend/get_columns.go:50-64 | The data entries over all columns number exactly the rows that carry a cell |
| JsonExport.Search | backend/get_json.go:70-72 | On cells sorted by index, the search gives the first position whose index is at least the target |
| JsonExport.GetDataAtColIdx | backend/get_json.go:69-79 | Cells at the index are found with their value; a miss gives (NULL, false) |
| JsonExport.GetDataBeyondLast | backend/get_json.go:74-76 | An index above every stored index finds nothing, sorted or not |
| JsonExport.GetDataAtColIdxIsScan | backend/get_json.go:68-79 | On sorted cells the lookup agrees with a linear scan for the first cell at the index |
| JsonExport.FillRow | backend/get_json.go:55-62 | The column loop builds the row that `RowAt` specifies |
| JsonExport.StringMapsFromSheet | backend/get_json.go:46-66 | One row per index below the stored row count, each as `RowAt` specifies |
| JsonExport.RowAtKeys | backend/get_json.go:57-62 | A row has a key iff some column with that name has a cell at the row's index |
| JsonExport.RowAtLastColumnWins | backend/get_json.go:59-61 | Of columns sharing a name, the last one with a cell gives the value |
| JsonExport.GetJson | backend/get_json.go:16-44 | A malformed branch id gives 400; otherwise 200 with one row list per sheet of the branch, in order |
| SheetView.Longest | backend/get_sheet.go:116-122 | The row count is at least every column's length and equals one of them; it is 0 without columns. It counts cells, not the highest index plus one |
| SheetView.RowCount | backend/get_sheet.go:173-179 | The running-maximum loop computes `Longest` |
| SheetView.IdNames | backend/get_sheet.go:158-166 | One id/name pair per sheet, in order |
| SheetView.BuildSheetResponse | backend/get_sheet.go:137-192 | Fails only when the sheet's branch is missing; otherwise the result describes the sheet |
| SheetView.GetSheet | backend/get_sheet.go:70-135 | No id, no sheet and no branch each give their own error; otherwise the result describes the sheet |
| MergeTargets.ValidSourcesMembers | backend/get_merge_targets.go:57-73 | A branch is listed iff it is not the target and the user may read it |
| MergeTargets.OldestNeverListed | backend/get_merge_targets.go:59-62 | The target branch is never offered as a source |
| MergeTargets.ValidSourcesAppend | backend/get_merge_targets.go:57-73 | The list keeps the branches' order |
| MergeTargets.CollectSources | backend/get_merge_targets.go:57-73 | The filtering loop computes the list of offered branches |
| MergeTargets.GetMergeTargets | backend/get_merge_targets.go:20-83 | A missing or malformed table id gives 400; a table without branches gives 500; no write access to the oldest branch gives 403; otherwise 200 with the sources and the oldest branch as target |
| MergeTargets.GetMergeTargetsSources | backend/get_merge_targets.go:75-81 | A successful answer offers only readable non-target branches of the table and names its oldest branch as target |
| MergePreview.SheetKey | backend/merge_preview.go:116-120 | A row's sheet key is its lineage id when present, else its own sheet id |
| MergePreview.ColumnKey | backend/merge_preview.go:121-125 | A row's column key is its lineage id when present, else its own column id |
| MergePreview.IndexLastWins | backend/merge_preview.go:109-153 | A key is in an index map iff some row has it, and it maps to the last such row |
| MergePreview.IndexRows | backend/merge_preview.go:109-130 | The indexing loop builds the six lookup maps |
| MergePreview.EmitEach | backend/merge_preview.go:158-265 | A loop over a Go map yields, in some order, exactly what each key gives, each key once |
| MergePreview.DistinctConcat | backend/merge_preview.go:158-265 | Joining the three conflict lists keeps them free of repeats |
| MergePreview.KindOfEmitted | backend/merge_preview.go:164-254 | Each loop emits conflicts of its own kind only |
| MergePreview.CellIdInjective | backend/merge_preview.go:250 | Different cell keys give different conflict ids |
| MergePreview.EmitSheetConflicts | backend/merge_preview.go:158-177 | The sheet loop emits exactly the sheet conflicts, each once |
| MergePreview.EmitColumnConflicts | backend/merge_preview.go:179-218 | The column loop emits exactly the column conflicts, each once |
| MergePreview.EmitCellConflicts | backend/merge_preview.go:221-265 | The cell loop emits exactly the cell conflicts, each once |
| MergePreview.DetectMergeConflicts | backend/merge_preview.go:99-268 | Each conflict is reported once, and the report holds exactly the conflicts the rule defines |
| MergePreview.ConflictParts | backend/merge_preview.go:164-254 | A conflict's kind tells which rule produced it |
| MergePreview.CellConflictRule | backend/merge_preview.go:221-247 | A cell conflict is reported iff both sides have the key, both were updated after the branch point, and their texts differ |
| MergePreview.OneSidedCellChangeNoConflict | backend/merge_preview.go:233-235 | A cell changed on one side only is never a conflict |
| MergePreview.NullMatchesEmpty | backend/merge_preview.go:237-247 | A NULL cell and an empty cell never conflict |
| MergePreview.ColumnConflictRule | backend/merge_preview.go:179-218 | A column conflict is reported iff both sides have the column, both were updated after the branch point, and the name or type differs; the required flag is never compared |
| MergePreview.SheetConflictRule | backend/merge_preview.go:158-177 | A sheet conflict is reported iff both sides have the sheet and both were updated after the branch point, even when the names agree |
| MergePreview.ConflictIdShapes | backend/merge_preview.go:165-250 | Conflict ids are `sheet-<id>`, `column-<id>-name`, `column-<id>-type` or `cell-<key>`, and the cell key names a cell on both sides |
| MergePreview.MergePreview | backend/merge_preview.go:38-97 | Missing branches give 404 and missing rights give 403; otherwise 200 with the detected conflicts, never nil |
| MergePlan.RunAppend | backend/merge_execute.go:193-474 | Running two plans in turn equals running their concatenation, stopping at the first failure |
| MergePlan.RunKeepsBranches | backend/merge_execute.go:168-716 | Merge writes touch only sheets, columns and cells |
| MergePlan.PerformStep | backend/merge_execute.go:266-300 | Performing one step is running the one-step plan |
| MergePlan.FindFirst | backend/merge_execute.go:219-260 | The search loop computes `Find`: the first element that matches, or none when nothing does |
| MergePlan.PlanOfMembers | backend/merge_execute.go:564-657 | A step is in a map-loop plan iff some key yields it |
| MergePlan.PlanOfTags | backend/merge_execute.go:564-657 | Every step of the plan carries the tag of a visited key |
| MergePlan.PlanOfDistinct | backend/merge_execute.go:564-657 | When each key yields at most one step tagged with that key, an order without repeats gives steps with distinct tags |
| MergePlan.PerformSteps | backend/merge_execute.go:564-586 | A loop body's writes are the run of its steps |
| MergePlan.RunEach | backend/merge_execute.go:564-657 | A loop over a Go map runs, in some order of its keys, each key's writes, stopping at the first failure |
| MergeExecute.Resolve | backend/merge_execute.go:193-301 | One conflict's resolution performs exactly its resolution steps |
| MergeExecute.ApplyResolutions | backend/merge_execute.go:193-301 | The conflict loop runs the resolution plan |
| MergeExecute.ResolvedPlanComplete | backend/merge_execute.go:195-206 | A resolution plan that completes had a `source` or `target` resolution for every conflict |
| MergeExecute.AllTargetWritesNothing | backend/merge_execute.go:207-301 | Choosing `target` for every conflict writes nothing |
| MergeExecute.DetectedWellFormed | backend/merge_execute.go:211-300 | Detected conflicts have the id and column shapes the resolutions rely on |
| MergeExecute.ApplyUpdate | backend/merge_execute.go:318-380 | One source row's update performs exactly its update steps |
| MergeExecute.ApplyUpdates | backend/merge_execute.go:310-385 | The row loop runs the update plan |
| MergeExecute.UpdatePlanFrom | backend/merge_execute.go:318-380 | Each non-conflicting update writes a source cell updated after the branch point into the target cell its ids match |
| MergeExecute.UpdatePlanComplete | backend/merge_execute.go:318-380 | Conversely, every source cell updated after the branch point that no cell conflict names and whose ids match a target cell gets such an update |
| MergeExecute.ScanTarget | backend/merge_execute.go:414-440 | The scan reports whether the column already has a cell at the index, and the column of the last matching row |
| MergeExecute.MaxIdx | backend/merge_execute.go:442-453 | The result is the highest index of the column's cells, or -1 when the column has none |
| MergeExecute.NewCellColumnMatches | backend/merge_execute.go:392-440 | A new cell goes into a matching target column that has no cell at its index |
| MergeExecute.NewDataPlanFresh | backend/merge_execute.go:442-466 | The corrected new cells never share an index within a column or land on an existing index |
| MergeExecute.NewDataAsWrittenSteps | backend/merge_execute.go:392-466 | The new cells as written are exactly one per source cell that has a new-cell column, each at one past that column's highest pre-merge index |
| MergeExecute.NewDataAsWrittenFrom | backend/merge_execute.go:392-466 | Every new cell as written comes from a source cell created after the branch point, with its value and no type, and its index is one past its column's highest pre-merge index |
| MergeExecute.NewDataFrom | backend/merge_execute.go:392-474 | In the corrected plan too, every new cell comes from a source cell created after the branch point, with its value and no type |
| MergeExecute.NewDataComplete | backend/merge_execute.go:392-466 | Conversely, the corrected plan creates a cell for every source cell that has a new-cell column |
| MergeExecute.NewDataDuplicateIndex | backend/merge_execute.go:442-466 | As written, two new cells of one column are both created at index 1; the corrected plan creates them at 1 and 2 |
| MergeExecute.ScanTargetColumn | backend/merge_execute.go:414-440 | The scan loop computes `ScanTarget` |
| MergeExecute.MaxIdxOf | backend/merge_execute.go:442-453 | The running-maximum loop computes `MaxIdx` |
| MergeExecute.FindNewCellColumn | backend/merge_execute.go:393-441 | The test and scan of one source row find the column its new cell goes into, or none |
| MergeExecute.NewCellOfRow | backend/merge_execute.go:393-459 | One source row yields its new cell as written: in the column found, at one past that column's highest pre-merge index |
| MergeExecute.CopyNewCell | backend/merge_execute.go:393-472 | One source row's body of the new-data loop performs exactly that row's new cell as written |
| MergeExecute.CopyNewData | backend/merge_execute.go:392-474 | The new-data loop runs the new-cell plan as written, stopping at the first failed write |
| MergeExecute.CopyNewDataCorrected | backend/merge_execute.go:392-474 | With each column remembering the last index it handed out, the loop runs the corrected new-cell plan |
| MergeExecute.ExecuteMerge | backend/merge_execute.go:168-478 | The resolutions, the updates and the new cells as written run in order, stopping at the first error |
| MergeAdditions.BuildIndex | backend/merge_execute.go:551-558 | The loop builds the last-row-wins index map |
| MergeAdditions.BuildKeySet | backend/merge_execute.go:559-562 | The loop builds the set of keys the rows have |
| MergeAdditions.CreateNewSheets | backend/merge_execute.go:548-589 | The sheet loop runs the sheet plan for some order of the source sheets |
| MergeAdditions.NewSheetsCreated | backend/merge_execute.go:551-584 | In any order, exactly one copy of each new source sheet is created, with its lineage, and nothing else |
| MergeAdditions.SheetsByKey | backend/merge_execute.go:608-617 | A sheet key maps to the sheet of the last target row with that key |
| MergeAdditions.BuildSheetsByKey | backend/merge_execute.go:608-617 | The loop builds `SheetsByKey` |
| MergeAdditions.CreateNewColumns | backend/merge_execute.go:591-660 | The column loop runs the column plan for some order of the source columns |
| MergeAdditions.ColumnStepAdds | backend/merge_execute.go:619-657 | A column step, when present, adds a copy as `AddsNewColumn` says |
| MergeAdditions.NewColumnsOnly | backend/merge_execute.go:619-657 | Only new source columns are added, into the target sheet their sheet key stands for |
| MergeAdditions.NewColumnsAll | backend/merge_execute.go:619-657 | In any order, every new source column whose sheet key has a target sheet is added |
| MergeAdditions.NewColumnsOnce | backend/merge_execute.go:619-657 | In any order, no source column is added twice |
| MergeAdditions.ColumnsByLineage | backend/merge_execute.go:669-676 | Each source column maps to the last target column recording it as lineage |
| MergeAdditions.BuildColumnsByLineage | backend/merge_execute.go:669-676 | The loop builds `ColumnsByLineage` |
| MergeAdditions.ScanForData | backend/merge_execute.go:685-693 | The scan reports whether the column has a cell at the index |
| MergeAdditions.CopyDataToNewColumns | backend/merge_execute.go:662-716 | The target is read again, then the copy plan runs |
| MergeAdditions.CopyStepsFrom | backend/merge_execute.go:679-709 | Each copy step comes from its source row |
| MergeAdditions.CopiedCells | backend/merge_execute.go:669-709 | Every copied cell keeps its source's index and value, goes into the column that records its lineage, and fills an empty slot |
| MergeAdditions.CopiedCellsComplete | backend/merge_execute.go:669-709 | Conversely, every source cell whose column some target column records as lineage is copied when the column it goes to has no cell at its index |
| MergeAdditions.SheetIds | backend/merge_execute.go:493-498 | The loop collects the ids of the target sheets |
| MergeAdditions.ReferencesPositive | backend/merge_execute.go:501-519 | The count is positive iff some source sheet was copied from a target sheet |
| MergeAdditions.CountReferences | backend/merge_execute.go:501-515 | The counting loop computes `References` |
| MergeAdditions.ValidateHierarchicalMerge | backend/merge_execute.go:480-546 | A source with sheets but none copied from the target fails the check; otherwise missing branches are errors and the source must be younger than the target |
| MergeHandler.ResolutionMap | backend/merge_execute.go:93-96 | The map holds exactly the named conflict ids, with no more entries than resolutions |
| MergeHandler.ResolutionMapLastWins | backend/merge_execute.go:93-96 | Of several resolutions of one conflict, the last counts |
| MergeHandler.BuildResolutionMap | backend/merge_execute.go:93-96 | The loop builds `ResolutionMap` |
| MergeHandler.CountCheckAdmitsMissing | backend/merge_execute.go:98-101 | The count check admits two resolutions of one conflict, leaving another unresolved |
| MergeHandler.MergeIntoItselfDeletesTarget | backend/merge_execute.go:46-51 | As written, when the source is the oldest branch, the merge goes into the source and then deletes it |
| MergeHandler.AdmitsOldestSource | backend/merge_execute.go:39-61 | As written, a source that is the oldest branch of its table, and that the user may read and write, is admitted as its own target |
| MergeHandler.CorrectedMergeTarget | backend/merge_execute.go:46-51 | The corrected target is the oldest branch of the source's table, and never the source |
| MergeHandler.AdmitMeans | backend/merge_execute.go:39-61 | A request is admitted iff the source exists, its table has an oldest branch, the user may read the source and the user may write that branch; the admitted target is that oldest branch |
| MergeHandler.ExecutedMergeResolvedAll | backend/merge_execute.go:168-301 | A run of the merge's own writes that completes had a `source` or `target` resolution for every conflict |
| MergeHandler.CompletedMergeResolvedAll | backend/merge_execute.go:98-108 | A merge that completes had a `source` or `target` resolution for every conflict |
| MergeHandler.MergeKeepsOtherBranches | backend/merge_execute.go:103-157 | Whether it completes or stops, a merge removes no branch but the source |
| MergeHandler.CopyStageKeeps | backend/merge_execute.go:139-157 | The last stage keeps every branch but the source |
| MergeHandler.MergeKeepsTarget | backend/merge_execute.go:151-157 | With the corrected target, the target branch survives every merge |
| MergeHandler.MergeExecuteHandler | backend/merge_execute.go:31-166 | A missing source gives 404, a table without an oldest branch 500, a missing read or write permission 403, and these change nothing; detection finds every conflict once; a count mismatch gives 400; otherwise the pipeline runs, answering 500 with the first error or 200 |
| MergeHandler.MergeSteps | backend/merge_execute.go:103-157 | The writes after the checks are those the pipeline specifies |
| MergeHandler.NewSheetsSteps | backend/merge_execute.go:111-157 | The new sheets are created over some order of their ids; their failure ends the merge with its message, and otherwise the later stages run |
| MergeHandler.NewColumnsSteps | backend/merge_execute.go:120-157 | The new columns are created against the target rows read again after the new sheets; their failure ends the merge with its message |
| MergeHandler.CopySteps | backend/merge_execute.go:138-157 | The cells of the new columns are copied; a failure ends the merge with its message, and otherwise the source is deleted and a failed deletion is ignored |
| CreateBranch.CopyCellsAppends | backend/create_branch.go:230-246 | Copying cells only appends cells; on success, one copy per entry, in order |
| CreateBranch.CopyColumnDataBatchInTx | backend/create_branch.go:230-246 | The cell loop is the cell copy |
| CreateBranch.CopyColumnsAppends | backend/create_branch.go:164-188 | Copying columns keeps branches and sheets; on success, one copy per column with its lineage, and all their cells |
| CreateBranch.CopyColumnsLoop | backend/create_branch.go:164-188 | The column loop is the column copy |
| CreateBranch.CopySheetColumnsInTx | backend/create_branch.go:156-191 | The source sheet's columns, read as `GetColumns` groups them, are copied into the target sheet |
| CreateBranch.CopySheetAppends | backend/create_branch.go:132-152 | Copying one sheet appends its copy as the only new sheet |
| CreateBranch.CopySheetsAppends | backend/create_branch.go:132-152 | On success, one copy per source sheet with its lineage, in order |
| CreateBranch.CopyBranchSheetsInTx | backend/create_branch.go:124-154 | Every sheet of the source branch is copied, in order |
| CreateBranch.CopyBranchAllOrNothing | backend/create_branch.go:91-122 | A failed copy leaves the records as they were; a successful one appends a copy of each source sheet; branches and permissions never change |
| CreateBranch.CopyBranchSheetsWithTransaction | backend/create_branch.go:91-122 | Begin, copy and commit, rolling back on failure |
| CreateBranch.CreateCopiesOldest | backend/create_branch.go:56-83 | After creation the table has an oldest branch; a new branch copies it, unless it is that branch, which then starts empty |
| CreateBranch.CreateBranchHandler | backend/create_branch.go:22-89 | A bad table id gives 400; a failed create or copy gives 500; otherwise the new branch is switched to with status 201 |
| CreateBranch.OpenSheetChoice | backend/create_branch.go:295-308 | The first sheet of the branch is opened; a branch without sheets gets one new "config" map sheet |
| CreateBranch.ChooseSheet | backend/create_branch.go:278-308 | A missing branch is an error; otherwise the chosen sheet is opened |
| CreateBranch.Answer | backend/create_branch.go:315-341 | The answer is the branch and the opened sheet as `GetSheet` shows it, recorded as the user's opened sheet |
| CreateBranch.SwitchBranch | backend/create_branch.go:272-343 | The whole of `switchBranch`: the sheet chosen, recorded and answered |
| MergeModal.AvailableBranches | frontend/src/mergeModal.tsx:46-48 | A branch is offered iff the table has it and it is not the current one; none without a table |
| MergeModal.OthersAppend | frontend/src/mergeModal.tsx:46-48 | The filter keeps the table's order: one more branch at the end adds itself at the end, unless it is the current one |
| MergeModal.AllConflictsResolved | frontend/src/mergeModal.tsx:199-201 | True iff every conflict has a non-empty choice |
| MergeModal.MergeResolutions | frontend/src/mergeModal.tsx:144-147 | One resolution per conflict, in order, with the chosen side or "target" |
| MergeModal.ResolutionMapChoices | frontend/src/mergeModal.tsx:144-147 | Every side in the server's resolution map is one the client sent |
| MergeModal.SentResolutionsResolveAll | frontend/src/mergeModal.tsx:144-147 | What the dialog sends passes the server's count check and resolves every conflict to the user's side or "target" |
| MergeModal.SentResolutionsValid | frontend/src/mergeModal.tsx:144-147 | When the user only ever chose "source" or "target", the server's map holds no other side |
| MergeModal.ResolveKeepsResolved | frontend/src/mergeModal.tsx:192-201 | A choice never unresolves the list, and choosing for the last open conflict completes it |
| MergeModal.Dialog.SelectBranch | frontend/src/mergeModal.tsx:247 | Picking a branch sets only the selection |
| MergeModal.Dialog.HandlePreview | frontend/src/mergeModal.tsx:75-129 | Nothing happens without a selection and a current sheet; otherwise the preview of the selected branch into the current one is asked for and its answer sets the conflicts and the step, or the error, with "Unknown error occurred" for a thrown value that is not an `Error` |
| MergeModal.Dialog.HandleMerge | frontend/src/mergeModal.tsx:131-190 | Nothing happens without a selection and a current sheet; otherwise the selected branch as source, the current branch as target and one resolution per conflict are sent; success closes the dialog, failure sets the error ("Failed to merge branches" for a thrown non-`Error`) and returns to the conflicts |
| MergeModal.Dialog.HandleResolution | frontend/src/mergeModal.tsx:192-197 | Only the chosen conflict's entry changes |
| MergeModal.Dialog.Back | frontend/src/mergeModal.tsx:320-352 | Back returns to branch selection |
| MergeModal.Dialog.Close | frontend/src/mergeModal.tsx:207-209 | Closing clears only the open flag |
| MergeModal.ExecuteSendsChoices | frontend/src/mergeModal.tsx:327 | An enabled execute button sends the user's own choice for every conflict |
| SheetModal.AllNameChars | frontend/src/sheetModal.tsx:17-19 | True iff every character is a name character |
| SheetModal.ValidJson | frontend/src/sheetModal.tsx:17-19 | True iff the string is a letter, `_` or `$` followed by name characters |
| SheetModal.ValidJsonExamples | frontend/src/sheetModal.tsx:17-19 | The empty string, a leading digit and a space are refused; a mixed well-formed name is accepted |
| SheetModal.NameExists | frontend/src/sheetModal.tsx:21-23 | The first list entry equal to the name, or none iff the list lacks it |
| SheetModal.NameValidityMeans | frontend/src/sheetModal.tsx:37-43 | A typed name is valid iff it is empty, or well formed and not yet listed |
| SheetModal.Dialog.constructor | frontend/src/sheetModal.tsx:25 | The dialog opens with an empty name marked invalid |
| SheetModal.Dialog.HandleNameChange | frontend/src/sheetModal.tsx:37-43 | The name and its validity are updated |
| SheetModal.Dialog.SaveAndExit | frontend/src/sheetModal.tsx:27-35 | The dialog closes; a valid non-empty name is appended and the list stored |
| SheetModal.SaveKeepsNamesDistinct | frontend/src/sheetModal.tsx:30-34 | A list without repeats stays without repeats |

## Left out

- Reads from the database never fail in the model. Writes, transaction begins and commits can fail.
- Error messages carry the handler's own text but not the database driver's error text that Go appends with `%v`.
- Request body decoding, JSON encoding and the HTTP plumbing (`respondWithJSON`, `chi` routing) are not modelled. Handlers take the decoded fields, and a parse failure is an `Option` that is `None`.
- The SQL queries are not part of this model. `Store.Db` defines each query as a function over the stored records, in insertion order.
- UUIDs are natural numbers issued by a counter, and their text form is a decimal numeral. Distinct ids are taken to print differently.
- `getEnumsForBranch` is left out, and the branch view carries no enums. Enums live in a sheet's columns, which are not modelled here.
- `SetOpenedSheet` and `CreateMapSheetColumns` are modelled as fallible calls with no modelled effect. The type "map" of the default sheet follows the name of the helper that creates it.
- A transaction's rollback always restores the records. The id counter and the call counter keep advancing.
- The non-transactional duplicates `copySheetColumns` and `copyColumnDataBatch` (backend/create_branch.go:193-228, 248-265) are not modelled. Nothing in the core calls them.
- `sourceMap` in `executeMerge` (backend/merge_execute.go:174-191) is not modelled. It is built and never read.
- The preview and execute targets differ: the preview merges into the branch the client names, while the execute handler merges into the table's oldest branch and ignores the target the client sends. Each handler is modelled as written; the corrected merge target of the second finding is stated beside the handler and not used by it.
- The corrected new-cell plan of the first finding is run by `MergeExecute.CopyNewDataCorrected`. `executeMerge`, and with it the handler, runs the plan as written.
- A resolved column-name conflict writes the source name with an empty type and `required` false, as the code does.
- The store puts no uniqueness constraint on (column, index). Duplicate indices are therefore representable, which the first finding relies on.
- Go map iteration order is unspecified. Every map loop is proved for all orders through a ghost enumeration of the keys.
- The `Printf` debug output is not modelled.
- MergeModal.Dialog.HandlePreview: the two awaits run without interleaving, and `reloadCurrentSheet` after a merge is not modelled. The modal's fetch answers are parameters.
- SheetModal.Dialog.SaveAndExit: browser `localStorage` is modelled as the `stored` field.
- Both dialogs register their Escape handler once, so it sees the first render's state. Key handling is left out; `Close` models the click outside the dialog.
- The shown `App.tsx` does not mount either dialog, and the shown context lacks their fields. The dialogs are modelled on their own state.
- The `sql.ErrNoRows` branch of `createBranchHandler` (backend/create_branch.go:58-83) is never taken. `CreateBranch.CreateCopiesOldest` proves the new branch is itself the oldest when the table had none.
- `validateHierarchicalMerge` is modelled, but no handler in the core calls it.

## Findings

| source | as written | input that shows it | evidently intended | confidence | as-written member | corrected member |
|---|---|---|---|---|---|---|
| backend/merge_execute.go:442-466 | Every new cell of a column gets one past the column's highest index in the target rows read before the merge. Those rows are not updated as cells are added. | The target column holds a cell at index 0, and the source adds cells at indices 1 and 2 after the branch point. Both are created at index 1. | Each new cell gets a fresh index past every index the column holds or has been given. | not executed | MergeExecute.NewDataPlanAsWritten, MergeExecute.NewDataDuplicateIndex | MergeExecute.NewDataPlan, MergeExecute.CopyNewDataCorrected, MergeExecute.NewDataPlanFresh |
| backend/merge_execute.go:46-51, 151-157 | The target is the table's oldest branch even when that is the source itself. After the merge, the source is deleted. | The table's oldest branch is sent as the source. The merge goes into it, and then the branch is deleted. | A request whose source is the oldest branch is rejected, so the merge target always survives. | not executed | MergeHandler.MergeTargetAsWritten, MergeHandler.AdmitsOldestSource, MergeHandler.MergeIntoItselfDeletesTarget | MergeHandler.CorrectedMergeTarget, MergeHandler.MergeKeepsTarget |

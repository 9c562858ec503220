# Workbook-to-platform configuration replay, modelled in Dafny

The system reads an Excel workbook sheet by sheet and replays it as create
calls against a remote configuration platform: unit groups, units,
parameter (tag) categories, parameter groups, parameters, industries, asset
models and the tags of hierarchy nodes. Each sheet becomes a table of cells,
its rows are grouped and converted into records through a label dictionary,
and each record set is compared with what the platform already lists. A
per-entity policy then decides which create requests are sent. The handlers
accumulate a text buffer of messages, which is what they return.

This project models the decisions of that pipeline:

- `Sheet` (`sheet.dfy`): value/comment fusion, `extract_notes` writing into
  a grid in place, dropping empty rows and columns, `group_merged_rows` and
  `find_next_non_none_row`. Dropping rows keeps the surviving rows' original
  index labels, and `find_next_non_none_row` returns such a label, not a
  position.
- `Metadata` (`metadata.dfy`): the shared shape of every
  `convert_*_metadata_to_dict`. A `Policy` records which header row is read,
  the label dictionary, the required fields and how each is checked (NaN
  only, or NaN and blank), the message raised (fixed, or naming `row + 1`),
  and whether values are stripped. Each handler instantiates it with its
  own constants.
- `Remote` (`remote.dfy`): the remote endpoints as inputs and the loops the
  handlers share. A search endpoint is a function from filter text to a
  response; a save endpoint is a function from payload to status. The
  shared loops are list differences, the search-per-record collection loop
  and the POST loop that stops at the first rejection.
- One module per handler: `UnitGroups`, `Units`, `ParameterCategory`,
  `ParameterGroups`, `ParameterCreation`, `ParameterHandler`, `Industry`,
  `AssetModel` and `Hierarchy`. Each handler is a class whose fields are the
  record list, the message buffer and a ghost log `posts` of every payload
  sent. Its methods are proved against specification functions (`Convert`,
  `SearchRun`, `Posted`, `CreateRun`, `Routing`, `HierarchyRun`, …), and the
  lemmas beside them state what those functions guarantee.
- `Pagination` (`pagination.dfy`): the page loop of `pagination_function`,
  including the in-place update of the caller's payload.
- `Text` (`text.dfy`): the string operations the handlers rely on
  (`lower`, `strip`, `split`, `replace`, integer and list/set rendering).

Python-runtime failures that the handlers catch and report are modelled as
values: a missing key (`KeyError`), `None.lower()` and `None.strip()`, and
subscripting the `(False, {})` tuple. So are the platform's HTTP
exceptions, whose text is `"<status>: <detail>"`. Each one lands in the
message buffer exactly where the source appends it, including the doubled
buffer produced by re-raising `ValueError(self.response_messages)`.

## Model

| member | source | states |
|---|---|---|
| Sheet.FuseCell | scripts/utils/common_utils.py:45-51 | The fused cell is empty iff neither the value nor the comment is a non-empty string. |
| Sheet.FuseCellText | scripts/utils/common_utils.py:45-51 | A fused cell is never the empty string. The value, when present, is a prefix. A present comment appears at the end as `<<<note>>>`. The lengths match `v <<<n>>>` and `<<<n>>>` exactly. |
| Sheet.ExtractNotes | scripts/utils/common_utils.py:35-53 | Every grid cell ends as the last fused non-empty text written at 1-based (row, column), i.e. 0-based (row-1, column-1). A cell nothing was written to keeps its old value. |
| Sheet.WrittenAtOwnPosition | scripts/utils/common_utils.py:40-53 | With distinct positions, a source cell's fused text lands exactly at (row-1, column-1), unless it is empty. |
| Sheet.WrittenNowhere | scripts/utils/common_utils.py:40-53 | A position no source cell names keeps its initial content. |
| Sheet.KeptRows | scripts/utils/common_utils.py:24 | The kept row indices increase, and a row is kept iff it is not entirely empty. |
| Sheet.KeptColumns | scripts/utils/common_utils.py:25 | The kept column indices increase, and a column is kept iff it is not entirely empty. |
| Sheet.ColumnEmptyAfterRowDrop | scripts/utils/common_utils.py:24-25 | Dropping empty rows first does not change which columns are empty. |
| Sheet.DropEmptyNormalises | scripts/utils/common_utils.py:24-25 | After both drops the table is rectangular, with no empty row and no empty column. |
| Sheet.KeptRowIsNotEmpty | scripts/utils/common_utils.py:24 | Every remaining row has a non-empty cell. |
| Sheet.KeptColumnIsNotEmpty | scripts/utils/common_utils.py:25 | Every remaining column has a non-empty cell. |
| Sheet.DropEmptyKeepsNonEmpty | scripts/utils/common_utils.py:24-25 | Every non-empty cell survives, in its kept row and kept column, with its value unchanged. |
| Sheet.NotesGrid | scripts/utils/common_utils.py:13-22 | The grid built from the sheet has the sheet's dimensions and is rectangular. |
| Sheet.ConvertSheetToTable | scripts/utils/common_utils.py:10-31 | The result is the noted grid with empty rows and columns dropped, so it is normalised. |
| Sheet.FindNextNonNoneRow | scripts/utils/common_utils.py:95-101 | Returns None iff no row after the start position has its cell in the column set. Otherwise it returns the original index label of the first such row: the label that row had before the empty rows were dropped. |
| Sheet.NextSetPosition | scripts/utils/common_utils.py:97-100 | The position of the first row after the start whose cell in the column is set, or None iff there is none. |
| Sheet.EmptyFirstRowDropped | scripts/utils/common_utils.py:24 | Dropping the empty first row of a three-row, one-column sheet keeps rows 1 and 2 under those labels. |
| Sheet.EmptyFirstRowTable | scripts/utils/common_utils.py:24-25 | The dropped table of that sheet is its rows 1 and 2, in its one column. |
| Sheet.NextRowIsLabelled | scripts/utils/common_utils.py:95-101 | On that sheet, the row after position 0 is found at position 1 but is returned as label 2: the label and the position differ. |
| Sheet.GroupMergedRows | scripts/utils/common_utils.py:103-117 | The groups are non-empty, and concatenated they are 0..len-1 in order. A row opens a group iff it is row 0 or its key cell is set. |
| Sheet.GroupsAreRuns | scripts/utils/common_utils.py:108-116 | Each group is a contiguous run that starts right after the previous group. |
| Sheet.LaterGroupStartsAfterRowZero | scripts/utils/common_utils.py:109-112 | Only the first group can start at row 0. |
| Sheet.SingleGroupWithoutLaterKeys | scripts/utils/common_utils.py:108-115 | When no row after row 0 has a key, a non-empty table forms exactly one group. |
| Sheet.Stitch | scripts/core/handlers/unit_groups.py:69-83 | Concatenating the grouped rows gives one row per grouped index. |
| Sheet.StitchRows | scripts/core/handlers/unit_groups.py:69-83 | The a-th stitched row is the table row at the a-th grouped index. |
| Sheet.StitchGroupingIsIdentity | scripts/core/handlers/unit_groups.py:69-83 | Stitching the groups of a grouping gives back the table itself. |
| Sheet.ExtractGroups | scripts/core/handlers/unit_groups.py:69-83 | Extraction fails, with the given text, iff there are no groups. |
| Sheet.ExtractGroupingOfTable | scripts/core/handlers/unit_groups.py:69-83 | For a grouping, extraction returns the table when it has rows and fails when it is empty. |
| Text.Lower | scripts/core/handlers/unit_groups.py:38-39 | Lower-casing keeps the length. |
| Text.LowerIdempotent | scripts/core/handlers/unit_groups.py:38-39 | Lower-casing twice equals lower-casing once. |
| Text.LowerKeepsNonLetters | scripts/core/handlers/unit_groups.py:38-39 | A string without capitals is unchanged. |
| Text.TrimStart | scripts/core/handlers/hierarchy_handler.py:100 | The result is a suffix of the input, only whitespace was removed, and it does not start with whitespace. |
| Text.TrimEnd | scripts/core/handlers/hierarchy_handler.py:100 | The result is a prefix of the input, only whitespace was removed, and it does not end with whitespace. |
| Text.StripHasNoOuterSpace | scripts/core/handlers/hierarchy_handler.py:100 | A stripped string is empty or has no outer whitespace. |
| Text.StripIdempotent | scripts/core/handlers/hierarchy_handler.py:111-112 | Stripping twice equals stripping once. |
| Text.StripBlank | scripts/core/handlers/hierarchy_handler.py:100 | An all-whitespace string strips to the empty string, which is how a blank cell is rejected. |
| Text.Split | scripts/core/handlers/hierarchy_handler.py:46-49 | Splitting gives at least one piece, and no piece contains the separator. |
| Text.StripClean | scripts/core/handlers/hierarchy_handler.py:42 | Stripping keeps an absent character absent and leaves no white space at either end. |
| Text.TagNamesClean | scripts/core/handlers/hierarchy_handler.py:42 | A tags cell yields at least one name. No name contains a comma, and none starts or ends with white space. |
| Text.JoinSplit | scripts/core/handlers/hierarchy_handler.py:46-49 | Joining the pieces with the separator gives back the input. |
| Text.RemoveChar | scripts/core/handlers/hierarchy_handler.py:42 | The character is absent from the result, and nothing new is introduced. |
| Text.RemoveAbsentChar | scripts/core/handlers/asset_model.py:318-319 | Removing an absent character is the identity. |
| Text.NatToString | scripts/core/handlers/hierarchy_handler.py:137 | A status code is rendered as a non-empty string of digits. |
| Text.NatToStringRoundTrip | scripts/core/handlers/hierarchy_handler.py:137 | Reading the digits back gives the number. |
| Text.NatToStringInjective | scripts/core/handlers/hierarchy_handler.py:137 | Distinct numbers render differently. |
| Text.QuoteAll | scripts/core/handlers/units_handler.py:61 | Quoting keeps one entry per element. |
| Text.Dedup | scripts/core/handlers/units_handler.py:39-43 | The set has exactly the elements of the list, each once. |
| Text.SetReprEmpty | scripts/core/handlers/units_handler.py:61 | A set renders as `set()` iff it is empty. |
| Text.SetRepr | scripts/core/handlers/units_handler.py:61 | A set renders as `set()` or between braces. |
| Text.ListRepr | scripts/core/handlers/unit_groups.py:55 | A list renders between brackets, and as `[]` iff it is empty. |
| Metadata.FieldOf | scripts/core/handlers/hierarchy_handler.py:98 | A header maps to a field of the label dictionary, or to nothing. |
| Metadata.MissingCheck | scripts/core/handlers/hierarchy_handler.py:99-108 | A cell passes iff no required rule for its field fails on it; a failure carries that rule's message for the row. |
| Metadata.MapRow | scripts/core/handlers/hierarchy_handler.py:97-115 | The row loop computes the row's record or its first failure. |
| Metadata.ConvertTable | scripts/core/handlers/hierarchy_handler.py:88-116 | The conversion loop computes the records and the error of the conversion function. |
| Metadata.RowRecordStaysFailed | scripts/core/handlers/hierarchy_handler.py:97-108 | Once a cell fails, later columns do not change the row's outcome. |
| Metadata.ConvertRowsStaysFailed | scripts/core/handlers/hierarchy_handler.py:94-116 | Once a row fails, later rows do not change the conversion. |
| Metadata.ConvertRowsShape | scripts/core/handlers/hierarchy_handler.py:94-116 | Without error there is one record per data row after the header. An error belongs to the first failing row, and the records before it are exactly those rows' records. |
| Metadata.RowRecordFailsAt | scripts/core/handlers/hierarchy_handler.py:97-108 | A cell that fails whatever came before makes its row fail. |
| Metadata.MissingRequiredFieldIsReported | scripts/core/handlers/hierarchy_handler.py:99-108 | A required cell that fails its check makes the conversion fail, and no record from that row on is kept. |
| Metadata.MissingMessageNamesRow | scripts/core/handlers/hierarchy_handler.py:101 | A missing-field error carries a required rule's message for the first failing data row, numbered `row + 1`. |
| Metadata.RowFailureMessage | scripts/core/handlers/hierarchy_handler.py:99-108 | A row's missing-field message is one of the policy's messages, for that row. |
| Metadata.RowRecordFields | scripts/core/handlers/hierarchy_handler.py:109-115 | A record's keys are exactly the mapped headers. Each value is its column's cleaned cell, and that cell passed the check. |
| Metadata.RequiredFieldPresent | scripts/core/handlers/hierarchy_handler.py:99-108 | In a converted record a required field is set, and for NaN-or-blank rules it is not blank. |
| Metadata.ConvertOutcome | scripts/core/handlers/hierarchy_handler.py:88-116 | The conversion fails before any record iff the sheet is empty (when the policy rejects that) or has no header row. Without error there is one record per data row below the header, and each is its row's record. |
| Metadata.RowRecordNotEarly | scripts/core/handlers/hierarchy_handler.py:97-108 | A data row fails only on a NaN header or a missing field. |
| Metadata.ConvertFailureLog | scripts/core/handlers/unit_groups.py:110-114 | A failed conversion only appends to the buffer, and what it appends ends with a newline. |
| Remote.LowerFields | scripts/core/handlers/unit_groups.py:38-39 | The lower-cased names line up with the records. The comprehension fails iff some record lacks the key or holds None. |
| Remote.ListDifference | scripts/core/handlers/unit_groups.py:41-50 | The loop computes the list difference in order, duplicates kept. |
| Remote.WithoutMembers | scripts/core/handlers/unit_groups.py:41-50 | An element is in `a` minus `b` iff it is in `a` and not in `b`. |
| Remote.NoDifferenceIffSameNames | scripts/core/handlers/unit_groups.py:41-52 | Both differences are empty iff the two name lists hold the same names. |
| Remote.SelectedSplit | scripts/core/handlers/industry_handler.py:50-54 | Selecting from a split list is selecting from each part. |
| Remote.SelectedAreAdded | scripts/core/handlers/asset_model.py:51-53 | The records selected by an added-name test are, in order, exactly those whose names make up the list difference. |
| Remote.SelectedStep | scripts/core/handlers/industry_handler.py:50-54 | One more record is selected iff its name is added. |
| Remote.SearchRun | scripts/core/handlers/unit_groups.py:149-174 | The collection loop keeps at most one row per record. |
| Remote.SearchEach | scripts/core/handlers/units_handler.py:154-178 | The loop computes the hits and stop reason of the search run. |
| Remote.SearchRunStaysStopped | scripts/core/handlers/unit_groups.py:149-174 | A rejected or faulty search ends the loop, and later records change nothing. |
| Remote.SearchRunOutcome | scripts/core/handlers/unit_groups.py:149-174 | The loop finishes iff every query is answered with 200. Every kept row is the first row of some non-empty answer. |
| Remote.NoHitsIffEveryBodyEmpty | scripts/core/handlers/units_handler.py:154-178 | A finished search found nothing iff every answer was empty. |
| Remote.Queries | scripts/core/handlers/units_handler.py:156 | There is one stripped filter per record. |
| Remote.Posted | scripts/core/handlers/parameter_category.py:128-146 | What is sent is a prefix of the payloads. |
| Remote.PostedStopsAtFirstRejection | scripts/core/handlers/unit_groups.py:119-136 | Without a rejection every payload is sent. Otherwise sending stops right after the first non-200 status, and everything before it was accepted. |
| Remote.PostedAppend | scripts/core/handlers/parameter_category.py:128-146 | Posting `x + y` posts `x`, then `y` only when `x` had no rejection. |
| Remote.PostedFrom | scripts/core/handlers/parameter_category.py:128-146 | One step of the POST loop: a rejected payload ends it, an accepted one continues. |
| Remote.PostedUpToRejection | scripts/core/handlers/parameter_category.py:128-146 | The payloads up to and including the rejected one are sent, and its status is reported. |
| Remote.PostEach | scripts/core/handlers/parameter_category.py:128-146 | The loop sends what the posting function sends and reports the first rejection. |
| UnitGroups.UnitGroupTemplate.constructor | scripts/constants/unit_constants.py:35-45 | The shared template starts with empty name and description. |
| UnitGroups.CreateRun | scripts/core/handlers/unit_groups.py:116-136 | At most one payload is sent per record. |
| UnitGroups.FillAndSave | scripts/core/handlers/unit_groups.py:121-136 | One pass posts at most the filled template. It continues iff it posted it and the status was 200, and it posts nothing iff the record lacks a key. |
| UnitGroups.CreateRunPostsOwnRecord | scripts/core/handlers/unit_groups.py:116-136 | The k-th POST carries record k's name and description. A complete run sent every record, all accepted; a rejection is the last POST. |
| UnitGroups.CreateRunStaysStopped | scripts/core/handlers/unit_groups.py:132-136 | After a rejection or missing key, later records are not posted. |
| UnitGroups.ExistingNames | scripts/core/handlers/unit_groups.py:38 | The remote names are lower-cased in order. |
| UnitGroups.UnitGroupsHandler.constructor | scripts/core/handlers/unit_groups.py:16-24 | The handler starts with no records, no POSTs and the given buffer. |
| UnitGroups.UnitGroupsHandler.ExtractUnitData | scripts/core/handlers/unit_groups.py:69-83 | Returns the stitched groups, or reports `No objects to concatenate` when there are none. |
| UnitGroups.UnitGroupsHandler.ConvertUnitMetadataToDict | scripts/core/handlers/unit_groups.py:85-114 | Appends the converted records without resetting the list. A missing name is logged with the doubled buffer. |
| UnitGroups.UnitGroupsHandler.ListUnitGroupExits | scripts/core/handlers/unit_groups.py:143-178 | Returns the first hit per record in order, or reports the rejected status and text. |
| UnitGroups.UnitGroupsHandler.CreateUnit | scripts/core/handlers/unit_groups.py:116-141 | Posts what the create run sends and leaves the shared template as the run leaves it. A rejection is raised with the platform's status and the buffer as its detail. |
| UnitGroups.UnitGroupsHandler.PostRecord | scripts/core/handlers/unit_groups.py:121-136 | One pass of the create loop advances the POSTs and the template exactly as the create run does for the next record. |
| UnitGroups.UnitGroupsHandler.Fail | scripts/core/handlers/unit_groups.py:63-67 | The buffer gains the error line; nothing else changes. |
| UnitGroups.UnitGroupsHandler.LoadSheet | scripts/core/handlers/unit_groups.py:29-34 | Succeeds iff the sheet has rows and converts. A sheet with rows appends its converted records even when conversion fails; a failure leaves the extraction or conversion log. Nothing is posted. |
| UnitGroups.UnitGroupsHandler.Synchronise | scripts/core/handlers/unit_groups.py:36-61 | Succeeds iff the listing is answered, every record has a name, and the names are equal or the create run saves everything. Equal names post nothing and log "Exists". Otherwise the create run's POSTs are made, and "Created" or the save failure is logged. A rejected listing is logged; a missing name leaves the buffer unchanged. |
| UnitGroups.UnitGroupsHandler.CreateAndReport | scripts/core/handlers/unit_groups.py:52-57 | Posts what the create run sends, and fails iff the run stopped early. A complete run posts every record once and logs "Created"; an incomplete one leaves the save failure's log. |
| UnitGroups.UnitGroupsHandler.AutomateUnitGroups | scripts/core/handlers/unit_groups.py:26-67 | Succeeds iff loading and synchronising succeed. After a failure, the buffer is the failing phase's log b followed by the automation prefix and b again, or the fault text for a missing name. The POSTs and the template are those of the phase that ran. |
| Units.UnitTemplate.constructor | scripts/constants/unit_constants.py:61-73 | The shared template starts empty. |
| Units.CreateRun | scripts/core/handlers/units_handler.py:118-141 | At most one payload is sent per record. |
| Units.FillAndSave | scripts/core/handlers/units_handler.py:120-141 | One pass posts at most the filled template. It continues iff it posted it and the status was 200, and it posts nothing iff the record lacks a key. |
| Units.CreateRunStaysStopped | scripts/core/handlers/units_handler.py:137-141 | After a rejection later records are not posted. |
| Units.AllPayloads | scripts/core/handlers/units_handler.py:121-126 | There is one payload per record. |
| Units.CreateRunPostsEveryRecord | scripts/core/handlers/units_handler.py:120-126 | The k-th POST carries record k with the group's id; a complete run posts every record. |
| Units.GroupsCreateRunStaysStopped | scripts/core/handlers/units_handler.py:53-59 | A failed group ends the loop over groups. |
| Units.GroupsCreateRunPostsExpected | scripts/core/handlers/units_handler.py:50-59 | A complete run posts every record once for each remote group whose lower-cased label is a sheet group, in listing order. |
| Units.SaveLog | scripts/core/handlers/units_handler.py:137-146 | The buffer is unchanged iff the run saved everything. |
| Units.ExistingUnits | scripts/core/handlers/units_handler.py:39 | The remote unit names are lower-cased in order. |
| Units.ExistingGroups | scripts/core/handlers/units_handler.py:41 | The remote group labels are lower-cased in order. |
| Units.SheetGroups | scripts/core/handlers/units_handler.py:42-43 | The sheet's group names are exactly the lower-cased non-empty `unit_group_name` values. |
| Units.UnitsHandler.constructor | scripts/core/handlers/units_handler.py:16-24 | The handler starts with no records, no POSTs and the given buffer. |
| Units.UnitsHandler.ExtractUnitData | scripts/core/handlers/units_handler.py:71-85 | Returns the stitched groups, or reports that there are none. |
| Units.UnitsHandler.ConvertUnitMetadataToDict | scripts/core/handlers/units_handler.py:87-116 | Appends the converted records. A missing name is logged with the doubled buffer. |
| Units.UnitsHandler.CheckUnit | scripts/core/handlers/units_handler.py:148-184 | Returns the first hit per record in order, or reports the rejection. |
| Units.UnitsHandler.ListUnitGroup | scripts/core/handlers/units_handler.py:186-211 | A 200 listing gives its rows, or nothing when it is empty; otherwise the status is reported. |
| Units.UnitsHandler.CreateUnit | scripts/core/handlers/units_handler.py:118-146 | Posts every record with the group's id until a rejection, mutating the shared template. |
| Units.UnitsHandler.PostRecord | scripts/core/handlers/units_handler.py:120-141 | One pass of the create loop advances the POSTs and the template exactly as the create run does for the next record. |
| Units.UnitsHandler.CreateIfWanted | scripts/core/handlers/units_handler.py:53-59 | A group is created for iff its label is a sheet group, with its "Created Units" line. |
| Units.UnitsHandler.CreateForListedGroups | scripts/core/handlers/units_handler.py:50-59 | The loop over remote groups computes the groups run: its POSTs, its log and the template it leaves. |
| Units.UnitsHandler.Fail | scripts/core/handlers/units_handler.py:65-69 | The buffer gains the error line; nothing else changes. |
| Units.UnitsHandler.LoadSheet | scripts/core/handlers/units_handler.py:30-34 | Succeeds iff the sheet has rows and converts. A sheet with rows appends its converted records even when conversion fails; a failure leaves the extraction or conversion log. Nothing is posted. |
| Units.UnitsHandler.Synchronise | scripts/core/handlers/units_handler.py:36-63 | Succeeds iff the listings are answered and, when creation runs, the groups run saves everything. The same units log "Exists" with the set. Otherwise creation runs only when the group sets differ too, and its POSTs and log are the groups run's. Each failure leaves its own log: the rejected search or listing, or the save failure. |
| Units.UnitsHandler.AutomateUnits | scripts/core/handlers/units_handler.py:26-69 | Succeeds iff loading and synchronising succeed, with the two-level gate. After a failure, the buffer is the failing phase's log b followed by the automation prefix and b again. Subscripting the `(False, {})` marker ends in its TypeError text. |
| ParameterCategory.PayloadOf | scripts/core/handlers/parameter_category.py:128-131 | The payload takes name, description and icon from the record, each `''` when absent. |
| ParameterCategory.Payloads | scripts/core/handlers/parameter_category.py:127-131 | There is one payload per record, in order. |
| ParameterCategory.PostedUnderOwnName | scripts/core/handlers/parameter_category.py:128-142 | The k-th POST carries record k's category name. |
| ParameterCategory.ExistingNames | scripts/core/handlers/parameter_category.py:41 | The remote names are lower-cased in order. |
| ParameterCategory.ParameterCategoryHandler.constructor | scripts/core/handlers/parameter_category.py:18-27 | The handler starts empty with the given buffer. |
| ParameterCategory.ParameterCategoryHandler.ExtractParameterData | scripts/core/handlers/parameter_category.py:77-91 | Returns the stitched groups, or reports that there are none. |
| ParameterCategory.ParameterCategoryHandler.ConvertParameterMetadataToDict | scripts/core/handlers/parameter_category.py:93-123 | Replaces the list with the converted records, except on an early failure. A missing name is logged with the doubled buffer. |
| ParameterCategory.ParameterCategoryHandler.CheckParameterCategories | scripts/core/handlers/parameter_category.py:154-188 | Returns the first hit per record in order, or reports the rejection. |
| ParameterCategory.ParameterCategoryHandler.CreateParameterCategory | scripts/core/handlers/parameter_category.py:125-152 | Posts every record's payload up to the first rejection, which is raised as 502. |
| ParameterCategory.ParameterCategoryHandler.Fail | scripts/core/handlers/parameter_category.py:71-75 | The buffer gains the error line; nothing else changes. |
| ParameterCategory.ParameterCategoryHandler.LoadSheet | scripts/core/handlers/parameter_category.py:32-37 | Succeeds iff the sheet has rows and converts. The list is replaced by the records unless conversion failed early; a failure leaves the extraction or conversion log. Nothing is posted. |
| ParameterCategory.ParameterCategoryHandler.Synchronise | scripts/core/handlers/parameter_category.py:39-70 | Succeeds iff the search finishes, every record has a name, and, when names differ, no payload is rejected. Equal names post nothing and log "Exists". Otherwise every payload up to the first rejection is posted and "Updated" or the rejection is logged. |
| ParameterCategory.ParameterCategoryHandler.CreateAndReport | scripts/core/handlers/parameter_category.py:55-64 | Posts every payload up to the first rejection, and fails iff one is rejected. Without a rejection every payload is posted and "Updated" is logged; with one, the rejection's log is left. |
| ParameterCategory.ParameterCategoryHandler.AutomateParameterCategory | scripts/core/handlers/parameter_category.py:29-75 | Succeeds iff loading and synchronising succeed. After a failure, the buffer is the failing phase's log b followed by the automation prefix and b again, or the fault text for a missing name. |
| ParameterCreation.PayloadOf | scripts/core/handlers/parameter_creation.py:137-139 | The payload takes `tag_name` and `description` from the record. |
| ParameterCreation.Payloads | scripts/core/handlers/parameter_creation.py:136-139 | There is one payload per record, in order. |
| ParameterCreation.NothingFoundIffEverySearchEmpty | scripts/core/handlers/parameter_creation.py:161-191 | The existence check found nothing iff every record's search came back empty. |
| ParameterCreation.PostedUnderOwnName | scripts/core/handlers/parameter_creation.py:137-153 | The k-th POST carries record k's tag name. |
| ParameterCreation.ParameterCreationHandler.constructor | scripts/core/handlers/parameter_creation.py:18-27 | The handler starts empty with the given buffer. |
| ParameterCreation.ParameterCreationHandler.ExtractParameterData | scripts/core/handlers/parameter_creation.py:56-70 | Returns the stitched groups, or reports that there are none. |
| ParameterCreation.ParameterCreationHandler.ConvertParameterMetadataToDict | scripts/core/handlers/parameter_creation.py:72-103 | Replaces the list with the records under header row 1, except on an early failure. |
| ParameterCreation.ParameterCreationHandler.CheckParameter | scripts/core/handlers/parameter_creation.py:161-195 | Returns the first hit per record in order, or reports the rejection. |
| ParameterCreation.ParameterCreationHandler.CreateParameter | scripts/core/handlers/parameter_creation.py:134-159 | Posts every record's payload up to the first rejection. |
| ParameterCreation.ParameterCreationHandler.CreateOrReport | scripts/core/handlers/parameter_creation.py:43-48 | Creates when nothing was found, and otherwise logs "Parameter exists" and posts nothing. |
| ParameterCreation.ParameterCreationHandler.Fail | scripts/core/handlers/parameter_creation.py:50-54 | The buffer gains the error line; nothing else changes. |
| ParameterCreation.ParameterCreationHandler.LoadSheet | scripts/core/handlers/parameter_creation.py:32-37 | Succeeds iff the sheet has rows and converts. The list is replaced by the records unless conversion failed early; a failure leaves the extraction or conversion log. Nothing is posted. |
| ParameterCreation.ParameterCreationHandler.AutomateParameterCreation | scripts/core/handlers/parameter_creation.py:29-54 | As written: nothing is ever posted, and a converted sheet ends in the missing-attribute error. |
| ParameterCreation.ParameterCreationHandler.AutomateParameterCreationWithoutDataType | scripts/core/handlers/parameter_creation.py:29-54 | Without the undefined call, a run succeeds iff the sheet loads, the search finishes and, when nothing was found, no payload is rejected. It creates or reports as `CreateOrReport` does. After a failure, the buffer is the failing phase's log b followed by the automation prefix and b again. |
| ParameterGroups.FirstIndex | scripts/core/handlers/parameter_groups.py:64-65 | The index is the first entry whose lower-cased label matches, or the length when none does. |
| ParameterGroups.FirstMatch | scripts/core/handlers/parameter_groups.py:64-65 | There is no match iff no label matches case-insensitively. |
| ParameterGroups.FindCategory | scripts/core/handlers/parameter_groups.py:64-65 | The search loop returns the first match. |
| ParameterGroups.Resolved | scripts/core/handlers/parameter_groups.py:62-67 | There is at most one resolved entry per category. |
| ParameterGroups.Unresolved | scripts/core/handlers/parameter_groups.py:62-67 | There is at most one missing entry per category. |
| ParameterGroups.ResolutionCounts | scripts/core/handlers/parameter_groups.py:62-67 | Each category is either resolved or missing. |
| ParameterGroups.UnresolvedMembers | scripts/core/handlers/parameter_groups.py:62-67 | The missing categories are exactly the sheet categories with no remote match. |
| ParameterGroups.ResolvedMembers | scripts/core/handlers/parameter_groups.py:62-67 | The resolved entries are exactly the first matches of the sheet categories. |
| ParameterGroups.ExistingLabels | scripts/core/handlers/parameter_groups.py:59-63 | The remote labels are lower-cased in order. |
| ParameterGroups.ListedIffFound | scripts/core/handlers/parameter_groups.py:59-63 | A category is among the lower-cased labels iff the lookup finds it. |
| ParameterGroups.ResolveCategories | scripts/core/handlers/parameter_groups.py:62-67 | The loop computes the resolved and missing lists. |
| ParameterGroups.CategoryOf | scripts/core/handlers/parameter_groups.py:149 | The category is the first resolved entry's value, when there is one. |
| ParameterGroups.PayloadOf | scripts/core/handlers/parameter_groups.py:144-149 | The payload takes the record's name and description and the given category. |
| ParameterGroups.Payloads | scripts/core/handlers/parameter_groups.py:68-71 | There is one payload per record, in order. |
| ParameterGroups.ExistingGroups | scripts/core/handlers/parameter_groups.py:42 | The remote group names are lower-cased in order. |
| ParameterGroups.SheetCategories | scripts/core/handlers/parameter_groups.py:45-46 | The sheet categories are exactly the lower-cased non-empty `category` values. |
| ParameterGroups.FirstResolvable | scripts/core/handlers/parameter_groups.py:62-71 | Points at the first sheet category with a remote match. |
| ParameterGroups.ResolvedStart | scripts/core/handlers/parameter_groups.py:149 | The first resolved entry is the match of the first resolvable category; none resolve before it. |
| ParameterGroups.CreationPostsEveryRecordOrNone | scripts/core/handlers/parameter_groups.py:62-71 | With no category resolved nothing is sent. Otherwise every record is sent with the first resolved category. |
| ParameterGroups.ParameterGroupsHandler.constructor | scripts/core/handlers/parameter_groups.py:18-27 | A missing buffer starts as the empty string. |
| ParameterGroups.ParameterGroupsHandler.ExtractParameterGroupsData | scripts/core/handlers/parameter_groups.py:95-109 | Returns the stitched groups, or reports that there are none. |
| ParameterGroups.ParameterGroupsHandler.ConvertParameterMetadataToDict | scripts/core/handlers/parameter_groups.py:111-140 | Replaces the list with the converted records, except on an early failure. A blank or missing name is reported with its row number. |
| ParameterGroups.ParameterGroupsHandler.CheckParameterGroups | scripts/core/handlers/parameter_groups.py:170-196 | Returns the first hit per record, or reports the rejection. |
| ParameterGroups.ParameterGroupsHandler.ListParameterCategory | scripts/core/handlers/parameter_groups.py:198-224 | A 200 listing gives its rows, an empty one the `(False, {})` marker, and otherwise the status is reported. |
| ParameterGroups.ParameterGroupsHandler.CreateParameterGroups | scripts/core/handlers/parameter_groups.py:142-168 | Posts one record's payload with the first resolved category; a rejection is raised with the platform's status. |
| ParameterGroups.ParameterGroupsHandler.CreateForEveryRecord | scripts/core/handlers/parameter_groups.py:70-72 | Calls the single create once per record until one fails. |
| ParameterGroups.ParameterGroupsHandler.PostNext | scripts/core/handlers/parameter_groups.py:70-72 | One pass posts the next payload. It continues iff the payload is accepted; a rejection ends the posting and leaves its log. |
| ParameterGroups.ParameterGroupsHandler.Fail | scripts/core/handlers/parameter_groups.py:89-93 | The buffer gains the error line; nothing else changes. |
| ParameterGroups.ParameterGroupsHandler.LoadSheet | scripts/core/handlers/parameter_groups.py:33-37 | Succeeds iff the sheet has rows and converts. The list is replaced by the records unless conversion failed early; a failure leaves the extraction or conversion log. Nothing is posted. |
| ParameterGroups.ParameterGroupsHandler.CreateResolved | scripts/core/handlers/parameter_groups.py:68-77 | Posts every record when some category resolved, and logs the created and missing lines. |
| ParameterGroups.ParameterGroupsHandler.CreateGroups | scripts/core/handlers/parameter_groups.py:56-82 | Resolves the categories, then creates as `CreateResolved` does. |
| ParameterGroups.ParameterGroupsHandler.CreateAndReport | scripts/core/handlers/parameter_groups.py:68-81 | Posts every record under the first resolved category when one resolved, and fails iff a payload is rejected. Without a rejection the created and missing lines are logged; with one, the rejection's log is left. |
| ParameterGroups.ParameterGroupsHandler.ReportMissing | scripts/core/handlers/parameter_groups.py:79-82 | The missing categories are logged after what is already there, and only when there are any. |
| ParameterGroups.ParameterGroupsHandler.Synchronise | scripts/core/handlers/parameter_groups.py:39-86 | Succeeds iff the searches finish and, when creation runs, no payload is rejected. Creation runs only with added groups and differing category sets. Added groups with equal categories do nothing, and no added groups logs "Exists". Each failure leaves its own log. |
| ParameterGroups.ParameterGroupsHandler.AutomateParameterGroups | scripts/core/handlers/parameter_groups.py:29-93 | Succeeds iff loading and synchronising succeed, with that gate. After a failure, the buffer is the failing phase's log b followed by the automation prefix and b again. |
| ParameterHandler.RawRowSucceeds | scripts/core/handlers/parameter_handler.py:69-73 | A raw row converts iff every header cell is text. |
| ParameterHandler.RawConversion | scripts/core/handlers/parameter_handler.py:61-75 | Header row 1; one record per row from 2 on, copying mapped cells unchanged. A non-text header fails before any record. |
| ParameterHandler.RawConversionFails | scripts/core/handlers/parameter_handler.py:66-75 | A failed raw conversion of a sheet with data rows failed on a NaN header label, before any record was kept. |
| ParameterHandler.RawRecordsCopied | scripts/core/handlers/parameter_handler.py:66-75 | A successful raw conversion has one record per row from the third on, each copied unchanged from its row. |
| ParameterHandler.HeaderFailure | scripts/core/handlers/parameter_handler.py:70 | The only way a raw row fails is a non-text header. |
| ParameterHandler.AppHandler.constructor | scripts/core/handlers/parameter_handler.py:18-25 | The handler starts with no metadata. |
| ParameterHandler.AppHandler.ExtractParameterData | scripts/core/handlers/parameter_handler.py:45-59 | Returns the stitched groups, or reports that there are none. |
| ParameterHandler.AppHandler.ConvertParameterMetadataToDict | scripts/core/handlers/parameter_handler.py:61-80 | Replaces the metadata with the raw conversion, or reports its failure. |
| ParameterHandler.AppHandler.Fail | scripts/core/handlers/parameter_handler.py:39-43 | The buffer gains the error line. |
| ParameterHandler.AppConstantsAttribute | scripts/constants/app_constants.py:4-12 | Reading an attribute of `AppConstants` succeeds iff the class defines it; otherwise it fails with Python's missing-attribute text. |
| ParameterHandler.MetadataSheetUndefined | scripts/constants/app_constants.py:4-12 | `AppConstants` has no `metadata_sheet`, so reading it fails. |
| ParameterHandler.AppHandler.AutomateParameter | scripts/core/handlers/parameter_handler.py:27-43 | As written, every run fails at line 30 with the missing-attribute error. The metadata is untouched, and the buffer gains the automation prefix and that text. |
| ParameterHandler.AppHandler.AutomateParameterFromSheet | scripts/core/handlers/parameter_handler.py:32-43 | With the sheet given, a run succeeds iff the sheet has rows and converts, and then leaves the raw conversion. On failure the metadata is untouched and the buffer is the extraction or conversion log b, followed by the automation prefix and b again. |
| Industry.PayloadOf | scripts/core/handlers/industry_handler.py:132-134 | The payload takes the record's industry and description. |
| Industry.Payloads | scripts/core/handlers/industry_handler.py:52-54 | There is one payload per record, in order. |
| Industry.ExistingIndustries | scripts/core/handlers/industry_handler.py:39 | The remote names are lower-cased in order. |
| Industry.CreatesIffNewName | scripts/core/handlers/industry_handler.py:42-50 | Something is added iff some sheet name is not listed remotely. |
| Industry.AcceptedAt | scripts/core/handlers/industry_handler.py:52-54 | An accepted create of an added record extends the accepted payloads by its own, with still no rejection. |
| Industry.RejectedAt | scripts/core/handlers/industry_handler.py:144-148 | A rejected create ends the run; the records before it and the rejected one were posted. |
| Industry.IndustryHandler.constructor | scripts/core/handlers/industry_handler.py:18-27 | A missing buffer starts as the empty string. |
| Industry.IndustryHandler.ExtractIndustryData | scripts/core/handlers/industry_handler.py:73-93 | Returns the stitched groups, or raises "No valid groups found." |
| Industry.IndustryHandler.ConvertIndustryMetadataToDict | scripts/core/handlers/industry_handler.py:95-128 | Appends the converted records to the list; a blank industry or description is reported with its row number. |
| Industry.IndustryHandler.GetDropDownData | scripts/core/handlers/industry_handler.py:158-186 | A non-empty 200 listing gives its rows, an empty one nothing, and otherwise the status is reported. |
| Industry.IndustryHandler.CreateIndustry | scripts/core/handlers/industry_handler.py:130-156 | Posts one record's payload; a rejection is reported with the response text. |
| Industry.IndustryHandler.CreateForAdded | scripts/core/handlers/industry_handler.py:50-54 | Posts, in sheet order and duplicates included, every record whose name is added, up to the first rejection. |
| Industry.IndustryHandler.CreateIfSelected | scripts/core/handlers/industry_handler.py:52-54 | One pass posts the record iff its name is added. It continues iff nothing was rejected so far; a rejection leaves its status and text. |
| Industry.IndustryHandler.CreateSelected | scripts/core/handlers/industry_handler.py:53-54 | Posting an added record continues iff it is accepted, and otherwise ends the run with the rejection's log. |
| Industry.IndustryHandler.Fail | scripts/core/handlers/industry_handler.py:67-71 | The buffer gains the error line. |
| Industry.IndustryHandler.LoadSheet | scripts/core/handlers/industry_handler.py:32-37 | Succeeds iff the sheet has rows and converts. A sheet with rows appends its converted records even when conversion fails; a failure leaves the extraction or conversion log. Nothing is posted. |
| Industry.IndustryHandler.Synchronise | scripts/core/handlers/industry_handler.py:38-66 | Succeeds iff the listing is 200, every record has an industry, and, when something is added, no payload is rejected. With nothing added nothing is posted and "Exists" is logged. Otherwise the added records are posted up to the first rejection, and "Created" or the rejection is logged. |
| Industry.IndustryHandler.CreateAndReport | scripts/core/handlers/industry_handler.py:50-61 | Posts the added records up to the first rejection, and fails iff one is rejected. Without a rejection all are posted and "Created" is logged; with one, the rejection's log is left. |
| Industry.IndustryHandler.AutomateIndustry | scripts/core/handlers/industry_handler.py:29-71 | Succeeds iff loading and synchronising succeed. After a failure, the buffer is the failing phase's log b followed by the automation prefix and b again, or the fault text for a missing industry. |
| AssetModel.FirstIndustry | scripts/core/handlers/asset_model.py:465-469 | Returns the first entry whose lower-cased name matches, or None iff none does. |
| AssetModel.TagIds | scripts/core/handlers/asset_model.py:315-322 | There is at most one id per remote entry. |
| AssetModel.TagIdsMembers | scripts/core/handlers/asset_model.py:315-322 | An id is kept iff its entry's name matches one of the cell's names, case-insensitively. |
| AssetModel.TagIdsStep | scripts/core/handlers/asset_model.py:391-398 | Ids are kept in remote order, one step per entry. |
| AssetModel.BasicInfoFor | scripts/core/handlers/asset_model.py:155-173 | The payload carries the record's name and description and the given id and version. Its industry is the first case-insensitive match, and `increment_version` is set iff the cell says yes. |
| AssetModel.BasicInfoPosts | scripts/core/handlers/asset_model.py:153-205 | A basic-info step posts at most its payload and succeeds iff the payload exists and is accepted. |
| AssetModel.UnknownIndustryIsReported | scripts/core/handlers/asset_model.py:196-200 | An industry with no match posts nothing and raises the "not found" error. |
| AssetModel.CreateStepPosts | scripts/core/handlers/asset_model.py:139-151 | A create posts exactly the record's basic-info payload. |
| AssetModel.CreateRunPosts | scripts/core/handlers/asset_model.py:51-53 | A run without error posts, in order, the payloads of exactly the records whose name is added. |
| AssetModel.CreateRunSkips | scripts/core/handlers/asset_model.py:51-53 | A record that is not added, or comes after a failure, changes nothing. |
| AssetModel.CreateRunTakes | scripts/core/handlers/asset_model.py:51-53 | An added record extends the posts by its payload. |
| AssetModel.CreateRunStaysFailed | scripts/core/handlers/asset_model.py:147-151 | After a failure the run stops. |
| AssetModel.NextVersionEntriesPosts | scripts/core/handlers/asset_model.py:516-527 | The next-version loop posts one payload per remote entry of the same model. |
| AssetModel.NextVersionPosts | scripts/core/handlers/asset_model.py:512-527 | The next version is posted only when the record asks for it. |
| AssetModel.VersionPostingsTargets | scripts/core/handlers/asset_model.py:516-520 | Every next-version payload carries the id and version of a remote entry with exactly the record's name. |
| AssetModel.NextVersionEntriesStayFailed | scripts/core/handlers/asset_model.py:516-533 | After a failure the next-version loop stops. |
| AssetModel.NextRunPosts | scripts/core/handlers/asset_model.py:65-68 | The next-version pass posts the next versions of exactly the records that were not added. |
| AssetModel.NextRunStaysFailed | scripts/core/handlers/asset_model.py:65-68 | After a failure that pass stops. |
| AssetModel.ListedNames | scripts/core/handlers/asset_model.py:39 | The remote names are lower-cased in order. |
| AssetModel.RoutingConditions | scripts/core/handlers/asset_model.py:43-49 | A record is added iff its name is not listed remotely. The next-version pass runs iff some remote name is absent from the sheet. |
| AssetModel.RoutingPosts | scripts/core/handlers/asset_model.py:49-68 | A successful run posts the creations of added records, then the next versions, each only under its gate. |
| AssetModel.FirstListingIsFirstAnswer | scripts/core/handlers/asset_model.py:476-506 | The existence check returns the first non-empty answer, and nothing iff every answer was empty. |
| AssetModel.AssetModelHandler.constructor | scripts/core/handlers/asset_model.py:18-27 | A missing buffer starts as the empty string. |
| AssetModel.AssetModelHandler.ExtractAssetData | scripts/core/handlers/asset_model.py:76-96 | Returns the stitched groups, or reports that there are none. |
| AssetModel.AssetModelHandler.ConvertAssetMetadataToDict | scripts/core/handlers/asset_model.py:98-137 | Replaces the list with the records under header row 1. A blank name, description or industry is reported with its row number. |
| AssetModel.AssetModelHandler.CheckAssetModelExits | scripts/core/handlers/asset_model.py:476-510 | Returns the first non-empty answer and whether there was one, or reports the rejection. |
| AssetModel.AssetModelHandler.GetDropDownData | scripts/core/handlers/asset_model.py:443-474 | Returns the lookup of the record's industry in the listing. |
| AssetModel.AssetModelHandler.FetchTagIds | scripts/core/handlers/asset_model.py:369-441 | An empty listing gives nothing. Otherwise it gives the matching ids of the cell's names, or reports the fault or status. |
| AssetModel.AssetModelHandler.CreateAssetModelBasicInfo | scripts/core/handlers/asset_model.py:153-205 | Performs one basic-info step. |
| AssetModel.AssetModelHandler.CreateAssetModelParameters | scripts/core/handlers/asset_model.py:207-258 | Performs the parameter step on the saved model. |
| AssetModel.AssetModelHandler.CreateAssetModel | scripts/core/handlers/asset_model.py:139-151 | Saves the basic info, then attaches the parameters. |
| AssetModel.AssetModelHandler.NextVersionOf | scripts/core/handlers/asset_model.py:516-527 | Saves the basic info for one remote entry. |
| AssetModel.AssetModelHandler.NextVersionPass | scripts/core/handlers/asset_model.py:516-527 | One pass of the next-version loop advances the state as the next-version run does for the next remote entry. |
| AssetModel.AssetModelHandler.AddNextVersion | scripts/core/handlers/asset_model.py:512-533 | Performs the next-version step for a record. |
| AssetModel.AssetModelHandler.CreateForAdded | scripts/core/handlers/asset_model.py:49-56 | Runs the creation loop over the records. |
| AssetModel.AssetModelHandler.CreateIfAdded | scripts/core/handlers/asset_model.py:51-53 | One pass of the creation loop advances the state as the creation run does for the next record. |
| AssetModel.AssetModelHandler.NextForListed | scripts/core/handlers/asset_model.py:61-68 | Runs the next-version loop over the records. |
| AssetModel.AssetModelHandler.Route | scripts/core/handlers/asset_model.py:39-68 | Performs the routing of creations and next versions. |
| AssetModel.AssetModelHandler.Fail | scripts/core/handlers/asset_model.py:70-74 | The buffer gains the error line. |
| AssetModel.AssetModelHandler.LoadSheet | scripts/core/handlers/asset_model.py:32-37 | Succeeds iff the sheet has rows and converts. The list is replaced by the records unless conversion failed early; a failure leaves the extraction or conversion log. Nothing is posted. |
| AssetModel.AssetModelHandler.AutomateAssetModel | scripts/core/handlers/asset_model.py:29-74 | Succeeds iff the sheet loads, the existence check finishes, every record has a name and the routing raises nothing. After a failure, the buffer is the failing phase's log b followed by the automation prefix and b again; after a routing error it is the routing's buffer, the prefix and the error. A successful run posts the creations, then the next versions, each under its gate. |
| Hierarchy.Values | scripts/core/handlers/hierarchy_handler.py:190 | The tag values line up with the tags. |
| Hierarchy.NewTagsStep | scripts/core/handlers/hierarchy_handler.py:195-200 | A parameter is added iff its id is neither on the node nor added earlier. |
| Hierarchy.NewTagsValues | scripts/core/handlers/hierarchy_handler.py:195-200 | The new values are exactly the parameter ids not already on the node. |
| Hierarchy.NewTagsDistinct | scripts/core/handlers/hierarchy_handler.py:198-200 | The new tags have no duplicate value. |
| Hierarchy.NewTagsAreParameters | scripts/core/handlers/hierarchy_handler.py:196-199 | Each new tag is `{value: tag_id, label: tag_name}` of the first parameter with that id. |
| Hierarchy.ExtendKeepsDistinct | scripts/core/handlers/hierarchy_handler.py:225-227 | Extending duplicate-free tags by the new tags keeps them duplicate-free. |
| Hierarchy.UpdateTags | scripts/core/handlers/hierarchy_handler.py:188-204 | The loop returns the new tags for the node's existing values. |
| Hierarchy.LastMatch | scripts/core/handlers/hierarchy_handler.py:50-53 | Returns the last node with that full name, or None iff there is none. |
| Hierarchy.ChildIndex | scripts/core/handlers/hierarchy_handler.py:48-55 | The match is a node index. |
| Hierarchy.DeepestPrefix | scripts/core/handlers/hierarchy_handler.py:48-55 | No match iff no `>`-prefix names a node. Otherwise the match is the last node named by the longest prefix that names any. |
| Hierarchy.DeepestMatch | scripts/core/handlers/hierarchy_handler.py:48-55 | The prefix loop computes that match. |
| Hierarchy.PayloadTags | scripts/core/handlers/hierarchy_handler.py:208-227 | The saved tags extend the node's own with values not already there, and keep them duplicate-free. |
| Hierarchy.Filters | scripts/core/handlers/hierarchy_handler.py:158-160 | There is one filter per tag name. |
| Hierarchy.HierarchyRunStaysFailed | scripts/core/handlers/hierarchy_handler.py:40-62 | After a failure the item loop stops. |
| Hierarchy.NodeUpdateGrows | scripts/core/handlers/hierarchy_handler.py:221-227 | Extending one node's tags only grows the nodes and keeps them duplicate-free. |
| Hierarchy.ItemStepSaves | scripts/core/handlers/hierarchy_handler.py:40-62 | An item posts its deepest node's payload when it has one, and otherwise changes nothing. |
| Hierarchy.HierarchyRunKeepsNodes | scripts/core/handlers/hierarchy_handler.py:40-62 | The loop only grows the nodes and keeps them duplicate-free. It posts at most once per item and never retracts a POST. |
| Hierarchy.HierarchyHandler.constructor | scripts/core/handlers/hierarchy_handler.py:19-28 | The handler starts with the given, possibly missing, buffer. |
| Hierarchy.HierarchyHandler.ExtractUnitData | scripts/core/handlers/hierarchy_handler.py:70-84 | Returns the stitched groups, or nothing when there are none. |
| Hierarchy.HierarchyHandler.ConvertUnitMetadataToDict | scripts/core/handlers/hierarchy_handler.py:86-121 | Converts the sheet. A blank name or tags cell is reported with its row number. |
| Hierarchy.HierarchyHandler.FetchHierarchyData | scripts/core/handlers/hierarchy_handler.py:123-149 | Succeeds iff the listing is 200 and then returns its nodes; otherwise the status is reported. |
| Hierarchy.HierarchyHandler.CheckParameter | scripts/core/handlers/hierarchy_handler.py:151-186 | Returns the first hit per tag name in order, or reports the rejection. |
| Hierarchy.HierarchyHandler.UpdateHierarchy | scripts/core/handlers/hierarchy_handler.py:206-250 | Posts the node's payload with the new tags and returns the node with its tags extended. |
| Hierarchy.HierarchyHandler.UpdateDeepest | scripts/core/handlers/hierarchy_handler.py:47-62 | Updates the deepest matching node, if any. |
| Hierarchy.HierarchyHandler.ProcessItem | scripts/core/handlers/hierarchy_handler.py:40-62 | Performs one item step. |
| Hierarchy.HierarchyHandler.ProcessItems | scripts/core/handlers/hierarchy_handler.py:40-62 | Performs the item loop. |
| Hierarchy.HierarchyHandler.ProcessNext | scripts/core/handlers/hierarchy_handler.py:40-62 | One pass of the item loop advances the state as the item run does for the next row; a row that raises ends the run. |
| Hierarchy.HierarchyHandler.HierarchyAutomation | scripts/core/handlers/hierarchy_handler.py:30-68 | Succeeds iff the sheet has rows and converts, the listing is 200 and no row raises; the result is then the buffer. An empty sheet leaves the extraction message. Otherwise the rows are appended, and the conversion failure, the listing status or the item run's buffer is what the raised buffer holds. |
| Pagination.WindowOf | scripts/utils/pagination_utils.py:18-20 | Page k spans `records` rows, from `(k-1)*records` to `k*records`. |
| Pagination.WindowsTile | scripts/utils/pagination_utils.py:18-20 | Page 1 starts at row 0, and each page starts where the previous one ended. |
| Pagination.BodiesMembers | scripts/utils/pagination_utils.py:36-38 | A row is collected iff one of the pages carries it. |
| Pagination.BodiesPrefix | scripts/utils/pagination_utils.py:36-41 | Later pages only extend what was collected. |
| Pagination.FirstStopUnique | scripts/utils/pagination_utils.py:17-41 | Only one page can be the first to stop the loop. |
| Pagination.PaginationFunction | scripts/utils/pagination_utils.py:11-44 | Pages are requested 1, 2, … up to the first that stops. The payload is left holding that page's window. The result is the earlier bodies in order, or None when that page was refused. |

## Left out

- HTTP transport, JWT signing, URLs, headers, logging and configuration are
  not modelled. Endpoints are functions from a filter or payload to a
  response, and a POST is an entry in the ghost `posts` log.
- Workbook loading (`openpyxl`) and pandas internals are not modelled. A
  sheet is a list of source cells with value and comment; numeric cells are
  taken as their text, so a numeric `0` is not treated as empty.
- `pd.concat` column alignment and the per-group `dropna` in the
  `extract_*_data` methods are not modelled; extraction is the
  concatenation of the grouped rows.
- `update_merged_cell` (`scripts/utils/common_utils.py:75-93`) is not
  modelled: it draws random ids and no caller enables it.
- Python sets are rendered and iterated in first-occurrence order, not hash
  order.
- Text.Lower: only ASCII `A`-`Z` is folded.
- Text.TrimStart: the whitespace set is that of `str.isspace` below code
  point 256 only.
- Text.TrimEnd: the same whitespace set as Text.TrimStart, below code point
  256 only.
- Text.QuoteAll: strings are quoted as `'s'` without Python's escaping of
  quotes and backslashes.
- The handlers of units, unit groups, parameter categories, parameter
  creation and parameters (`AppHandler`,
  `scripts/core/handlers/parameter_handler.py:24`) take the buffer as a
  string; their default `None`, which makes the first append raise
  `TypeError`, is not modelled.
- `check_parameter_exits` and `update_parameter` in
  `scripts/core/handlers/parameter_handler.py` are not modelled:
  `update_parameter` only prints and no automated path calls either.
- The asset-model parameter step (tag listings, `add_parameter` and the
  second save, `scripts/core/handlers/asset_model.py:207-258`) is the input
  `attach`. Only the tag-id filtering it relies on is modelled in full.
  The text `attach` returns on a failure is taken as given: in the source
  that error text embeds the buffer, which `attach` does not read.
- Remote rows without the fields the handlers read are not modelled; each
  remote row is a datatype with those fields.
- Hierarchy: `info` and `settings` are merged into the node's tags only.
- Hierarchy.HierarchyHandler.FetchHierarchyData: requires a buffer that is
  already set, as do CheckParameter, UpdateHierarchy, UpdateDeepest,
  ProcessItem and ProcessItems. This holds on every path through
  `hierarchy_automation` that reaches them, since conversion succeeded.
- Pagination.PaginationFunction: requires that some page ends the loop;
  without one the source requests pages forever. A payload without a
  `records` key, which makes line 19 of
  `scripts/utils/pagination_utils.py` raise `KeyError`, is not modelled.
- `get_data_type`, called at `scripts/core/handlers/parameter_creation.py:41`,
  is not defined anywhere in the repository. Its absence is modelled (see
  Findings), but no data-type behaviour is.
- The import of `Parameter` at
  `scripts/core/handlers/parameter_handler.py:10` names a class that
  `scripts/constants/app_constants.py` does not define, so importing the
  module raises `ImportError`. Module loading is not modelled; the handler is
  modelled as if the import succeeded (see Findings).
- Sheet.FindNextNonNoneRow: the label is the row's position in the noted
  grid, as pandas numbers a freshly built frame; labels from any other
  index are not modelled.
- Orchestration (`scripts/services/*`, `main.py`, `app.py`) is not part of
  this model.

## Findings

| source | as written | input that shows it | evidently intended | confidence | as-written member | corrected member |
|---|---|---|---|---|---|---|
| scripts/core/handlers/parameter_creation.py:41 | `automate_parameter_creation` calls `self.get_data_type()`, which no class defines, so every run that converts its sheet raises `AttributeError` before the create-or-exists decision | any sheet with a header row and one well-formed parameter row | run the existence check and then create the parameters or report that they exist (lines 43-48) | not executed | ParameterCreation.ParameterCreationHandler.AutomateParameterCreation | ParameterCreation.ParameterCreationHandler.AutomateParameterCreationWithoutDataType |
| scripts/core/handlers/parameter_handler.py:30 | `automate_parameter` reads `AppConstants.metadata_sheet`, which `AppConstants` does not define, so every call raises `AttributeError` before any sheet is read (the module's import of `Parameter` at line 10 fails even earlier) | any call of `automate_parameter` | read the parameter sheet, extract and convert it (lines 32-35) | not executed | ParameterHandler.AppHandler.AutomateParameter | ParameterHandler.AppHandler.AutomateParameterFromSheet |

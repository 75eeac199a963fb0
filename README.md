# hdx-cli-toolkit data-quality scoring, modelled in Dafny

This project models the dataset data-quality scoring engine of the HDX command-line toolkit, along with the helpers it is built from.

**The report and its scores.** `compile_data_quality_report` starts a report with six zero scores. It then runs the dimension scorers in order: relevance, timeliness, accessibility, interpretability, interoperability and findability. Each scorer fills in its own section of the report and its score. The report is the class `QualityReports.QualityReport`. Each `add_*_entries` scorer is a method that changes only its own section and its score.

**The inputs.** A dataset's catalog metadata is a tree of datatypes (module `Metadata`). A key the code tests with `in` or reads with `.get` is an `Option`, and so is `last_modified`, whose absence the timeliness scorer turns into a `KeyError`. A check history is a sequence of entries, each either a string or a record, as the code tells them apart with `isinstance`. The HAPI resource-id set and the Data-Grid dataset-name list are parameters.

**What the model proves.** Each modelled loop of the source that builds a value is a `method` with a `while` loop, proved equal to a recursive specification function. The print loops of the table printer are the exception: they are modelled only by the functions `TablePrinter.Cells`, `RowLines` and `TableLines`, which give the lines they print. The properties the code promises are lemmas about those functions:

- the change indicators each check contributes, and their dates;
- the last successful check, found by scanning from the end;
- the schema fingerprints and the geo-HXL test;
- the range and meaning of each dimension score;
- the benchmark's "equivalent score";
- the small string utilities, the table printer's width arithmetic and the attributes-file fold.

**Errors.** A crash of the Python code becomes an explicit error result (`Failure`):

- `UnknownFormat` for the `sys.exit` on an unknown resource format;
- `NoResources` for `max()` over no resources in the timeliness scorer;
- `TypeMismatch` for the timeliness scorer's comparison of the clock's text with a `due_date` that is absent (read as `False`) or neither `None` nor text;
- `NotANumber` for `float()` of an update frequency that is no number;
- `NoMetadata` for indexing absent metadata in the interpretability and interoperability scorers;
- `MissingKey` for a `KeyError`, including a missing `last_modified` in the timeliness scorer.

The shape-data type lookup, the table printer and the benchmark's `KeyError` (an `Outcome`) follow the same pattern.

**Modules.**
- `Common`: option and result types, and ASCII string helpers.
- `Metadata`: the input records.
- `CheckHistory`: `get_last_complete_check` and `summarise_resource_changes`. The code of both source copies is the same, so one definition models both.
- `Schemas`: `summarise_schema` and `check_schemas`.
- `StableSchema`: `summarise_resource`.
- The dimension scorers, one module each: `Relevance`, `Timeliness`, `Accessibility`, `Interpretability` and `Interoperability`.
- `QualityReports`: the report class and the compile step.
- `Benchmark`: `calculate_equivalent_score`.
- `Utilities`: `censor_secret`, `str_to_bool`, `make_conversion_func` and `write_dictionary`.
- `TablePrinter`: `print_table_from_list_of_dicts`.
- `Attributes`: `read_attributes`.

## Model

| member | source | states |
|---|---|---|
| CheckHistory.LastMatch | src/hdx_cli_toolkit/data_quality_utilities.py:724-731 | the reverse scan finds an index whose message is the fingerprint, and no later entry has it; no result exactly when no entry matches |
| CheckHistory.FindLastMatch | src/hdx_cli_toolkit/stable_schema_utilities.py:189-196 | the reverse loop with `break` returns the index the specification names |
| CheckHistory.LastCompleteCheck | src/hdx_cli_toolkit/data_quality_utilities.py:713-740 | a Success result carries a record of the kind the key names; any other status comes with the empty record |
| CheckHistory.FsLastCompleteCheck | src/hdx_cli_toolkit/data_quality_utilities.py:713-740 | for `fs_check_info`: a missing key gives "not found"; otherwise Success iff some dict entry has the message "File structure check completed"; on success the record is the last such entry; on failure the error names the fingerprint and the resource |
| CheckHistory.ShapeLastCompleteCheck | src/hdx_cli_toolkit/stable_schema_utilities.py:178-205 | the same for `shape_info` with the fingerprint "Import successful" |
| CheckHistory.GetLastCompleteCheck | src/hdx_cli_toolkit/stable_schema_utilities.py:178-205 | the imperative scan returns exactly the record and status of the specification |
| CheckHistory.LastCompleteCheckAsWritten | src/hdx_cli_toolkit/data_quality_utilities.py:724-738 | the code as written: it raises when the history list is empty |
| CheckHistory.EmptyHistoryRaises | src/hdx_cli_toolkit/data_quality_utilities.py:724-738 | an empty `fs_check_info` list makes the code as written raise, where the intended result is the "could not find" error |
| CheckHistory.AsWrittenAgreesOtherwise | src/hdx_cli_toolkit/data_quality_utilities.py:713-740 | for any history that is not an empty list, the code as written and the corrected specification agree |
| CheckHistory.ChangeSummary | src/hdx_cli_toolkit/data_quality_utilities.py:576-642 | the name-to-checks dictionary; its keys, and which resource owns each entry, are stated by ChangeSummaryKeys and ChangeSummaryEntry |
| CheckHistory.FsIndicators | src/hdx_cli_toolkit/data_quality_utilities.py:582-607 | the indicators of an `fs_check_info` history; their number, dates and order are stated by FsIndicatorCount, FsIndicatorsDated and FsIndicatorsAppend |
| CheckHistory.ShapeIndicators | src/hdx_cli_toolkit/data_quality_utilities.py:608-638 | the indicators of a `shape_info` history; ShapeIndicatorsAreDates and ShapeIndicatorsUnmarked state what they are |
| CheckHistory.SummariseResourceChanges | src/hdx_cli_toolkit/data_quality_utilities.py:576-642 | the nested loops build exactly the change summary the specification defines |
| CheckHistory.ResourceChangeChecks | src/hdx_cli_toolkit/stable_schema_utilities.py:41-107 | one resource's `checks`: fs indicators when there is `fs_check_info`, else shape indicators, else empty |
| CheckHistory.FsCheckIndicators | src/hdx_cli_toolkit/data_quality_utilities.py:582-607 | the loop over `fs_check_info` produces the specified indicators |
| CheckHistory.SheetChangeIndicators | src/hdx_cli_toolkit/data_quality_utilities.py:586-607 | the indicators of one completed check, one per sheet change or a bare date |
| CheckHistory.ShapeCheckIndicators | src/hdx_cli_toolkit/data_quality_utilities.py:608-638 | the loop over `shape_info` produces the specified indicators, with `first_check` reset on every iteration |
| CheckHistory.ChangeSummaryKeys | src/hdx_cli_toolkit/data_quality_utilities.py:576-580 | the summary's keys are exactly the resource names |
| CheckHistory.ChangeSummaryEntry | src/hdx_cli_toolkit/data_quality_utilities.py:576-608 | the last resource with a name owns that key; its checks come from `fs_check_info` when present (which takes precedence), else from `shape_info`, else they are empty |
| CheckHistory.FsIndicatorsAppend | src/hdx_cli_toolkit/data_quality_utilities.py:583-607 | the indicators of a concatenated history are the concatenation of the indicators, in order |
| CheckHistory.CompletedCheckIndicatorsShape | src/hdx_cli_toolkit/data_quality_utilities.py:586-607 | a completed check contributes max(1, len(sheet_changes)) indicators; each begins with `timestamp[0:10]`; without sheet changes it is the bare date; each sheet-change indicator contains "*" |
| CheckHistory.IndicatorBudgetAppend | src/hdx_cli_toolkit/data_quality_utilities.py:583-607 | the indicator budget adds up over concatenated check lists |
| CheckHistory.FsIndicatorCount | src/hdx_cli_toolkit/stable_schema_utilities.py:48-72 | the number of fs indicators is the sum of max(1, len(sheet_changes)) over the dict entries with the completed-check message; other entries contribute nothing |
| CheckHistory.FsIndicatorsDated | src/hdx_cli_toolkit/data_quality_utilities.py:583-607 | every fs indicator begins with the date of some completed check |
| CheckHistory.ShapeIndicatorsAreDates | src/hdx_cli_toolkit/stable_schema_utilities.py:73-103 | shape indicators are, in order, one per "Import successful" dict entry: the 10-character date, or "1900-01-01" when there is no timestamp |
| CheckHistory.ShapeIndicatorsUnmarked | src/hdx_cli_toolkit/data_quality_utilities.py:612-638 | with `first_check` reset at every entry, no shape indicator contains "*" (given dates without "*") |
| Schemas.SheetSchemas | src/hdx_cli_toolkit/data_quality_utilities.py:387-397 | the fingerprints of the sheets of one check; their keys, `shared_with` lists and first-sheet fields are stated by SheetSchemasKeys, SheetSchemasShared and SheetSchemasFirst |
| Schemas.ResourceSchemas | src/hdx_cli_toolkit/data_quality_utilities.py:380-422 | `summarise_schema`: the fingerprints of the last completed fs check, else of the last successful shape import, else none; a missing `sheets` or `layer_fields`, or an unknown layer data type, is a KeyError |
| Schemas.SheetSchemaEntries | src/hdx_cli_toolkit/data_quality_utilities.py:387-397 | the sheet loop builds exactly the fingerprints of the sheets |
| Schemas.EmptyHistorySchemas | src/hdx_cli_toolkit/data_quality_utilities.py:380-386 | on an empty `fs_check_info` list the corrected lookup gives no fingerprints, where the code as written raises |
| Schemas.LayerDataTypes | src/hdx_cli_toolkit/data_quality_utilities.py:405-407 | the lookup succeeds iff every layer data type is in the lookup table, and then maps each field to its entry |
| Schemas.SummariseSchema | src/hdx_cli_toolkit/data_quality_utilities.py:380-422 | the loop builds exactly the fingerprint dictionary the specification defines |
| Schemas.CheckSchemas | src/hdx_cli_toolkit/data_quality_utilities.py:425-437 | true iff some schema has HXL headers containing "#geo+lat", "#geo+lon" or "#geo+coord"; schemas without HXL headers are skipped |
| Schemas.SheetSchemasKeys | src/hdx_cli_toolkit/data_quality_utilities.py:387-397 | the fingerprint keys are exactly the sheets' header hashes |
| Schemas.SheetSchemasShared | src/hdx_cli_toolkit/data_quality_utilities.py:392-397 | `shared_with` lists the resource name once per sheet with that header hash |
| Schemas.CountHashPositive | src/hdx_cli_toolkit/data_quality_utilities.py:387-397 | a hash counted at least once belongs to some sheet |
| Schemas.SheetSchemasFirst | src/hdx_cli_toolkit/data_quality_utilities.py:389-395 | the sheet name, headers and HXL headers of a fingerprint come from the first sheet with that hash |
| Schemas.ShapeSchemasHaveNoGeoTag | src/hdx_cli_toolkit/data_quality_utilities.py:398-417 | a shape-data schema has blank HXL headers, so it never carries a geodenomination tag |
| StableSchema.LastSegment | src/hdx_cli_toolkit/stable_schema_utilities.py:141-142 | `split("/")[-1]`: a suffix of the URL with no "/", preceded by "/" when shorter than the URL |
| StableSchema.SheetLines | src/hdx_cli_toolkit/stable_schema_utilities.py:153-159 | one "{name} (n_columns:{ncols} x n_rows:{nrows})" line per sheet, in order |
| StableSchema.DescribeSheets | src/hdx_cli_toolkit/stable_schema_utilities.py:153-159 | the sheet loop produces the specified lines |
| StableSchema.SummariseOne | src/hdx_cli_toolkit/stable_schema_utilities.py:139-169 | the summary of one resource, as the specification defines it |
| StableSchema.Summaries | src/hdx_cli_toolkit/stable_schema_utilities.py:135-174 | the summary dictionary of the resources, or the first failure; SummariesKeys, SummariesEntry, SummariesFailure and SummariesStopAtFailure state its keys, owners and failures |
| StableSchema.EmptyHistorySummary | src/hdx_cli_toolkit/stable_schema_utilities.py:150-159 | on an empty `fs_check_info` list the corrected lookup gives no sheet lines, where the code as written raises |
| StableSchema.SummariseResource | src/hdx_cli_toolkit/stable_schema_utilities.py:135-174 | the loop over resources builds the specified summary dictionary |
| StableSchema.SummaryFields | src/hdx_cli_toolkit/stable_schema_utilities.py:138-169 | `format` is copied; `filename` is the text after the last "/" of `download_url`, or ""; `in_quarantine` defaults to False; the fs branch lists the sheets of the last completed check, or none; the shape branch adds exactly one "__DEFAULT__" line with n_rows "N/A" and copies the bounding box |
| StableSchema.SummariesStopAtFailure | src/hdx_cli_toolkit/stable_schema_utilities.py:138-169 | once a resource fails, later resources do not change the outcome |
| StableSchema.SummariesEntry | src/hdx_cli_toolkit/stable_schema_utilities.py:138-147 | the last resource with a name owns that entry |
| StableSchema.SummariesFailure | src/hdx_cli_toolkit/stable_schema_utilities.py:138-169 | a failed overall summary is the failure of some resource |
| StableSchema.SummariesKeys | src/hdx_cli_toolkit/stable_schema_utilities.py:138-139 | the summary's keys are exactly the resource names |
| Relevance.CheckForCrisis | src/hdx_cli_toolkit/data_quality_utilities.py:505-515 | False (no list) iff no tag starts with "crisis-"; otherwise a non-empty list of the crisis tags in tag order |
| Relevance.CrisisNamesEmpty | src/hdx_cli_toolkit/data_quality_utilities.py:505-515 | the crisis list is empty iff no tag starts with "crisis-" |
| Relevance.CrisisNamesAppend | src/hdx_cli_toolkit/data_quality_utilities.py:508-513 | the list keeps tag order across concatenation |
| Relevance.CrisisNamesMembers | src/hdx_cli_toolkit/data_quality_utilities.py:508-513 | a name is listed iff it is a tag starting with "crisis-" |
| Relevance.HapiCount | src/hdx_cli_toolkit/data_quality_utilities.py:451-455 | the number of resources whose id is in the HAPI set; bounded by HapiCountBounds |
| Relevance.HapiCountBounds | src/hdx_cli_toolkit/data_quality_utilities.py:451-455 | the count is at most the number of resources, and zero iff no resource id is in the HAPI set |
| Relevance.CheckForHapi | src/hdx_cli_toolkit/data_quality_utilities.py:448-460 | False iff no resource id is in the HAPI set; otherwise "n of total" with 1 ≤ n ≤ total |
| Relevance.RelevanceFlags | src/hdx_cli_toolkit/data_quality_utilities.py:102 | the Python truthiness of the nine relevance entries, in key order; Relevance.RelevanceScore states what each entry means |
| Relevance.CountTrueBounds | src/hdx_cli_toolkit/data_quality_utilities.py:102-103 | the count of truthy entries is at most their number, and zero iff none is truthy |
| Relevance.RelevanceOf | src/hdx_cli_toolkit/data_quality_utilities.py:71-105 | the nine relevance entries of a dataset; RelevanceScore states each entry and the score range |
| Relevance.RelevanceScore | src/hdx_cli_toolkit/data_quality_utilities.py:71-105 | the score lies in [1, 9], since `in_hdx` is always True; `in_hapi_output` iff the name starts with "hdx-hapi-"; `in_signals` iff the name or the organisation is in the fixed lists; the crisis entry is truthy iff some tag starts with "crisis-"; the HAPI entry is truthy iff some resource id is in the HAPI set; `in_data_grids` iff the name is in the Data-Grid list |
| Timeliness.DueDateComparable | src/hdx_cli_toolkit/data_quality_utilities.py:113-147 | the `due_date` comparison runs without TypeError exactly when `due_date` is `None` or text; an absent key reads as `False` (line 113) |
| Timeliness.ResourceCadence | src/hdx_cli_toolkit/data_quality_utilities.py:141-219 | no cadence entry iff the resource has no checks; otherwise it is 1 to 3, and above 1 only for a positive frequency and more than two checks |
| Timeliness.TimelinessResources | src/hdx_cli_toolkit/data_quality_utilities.py:140-221 | one resource entry per resource when the loop succeeds |
| Timeliness.ResourceTimelinessOf | src/hdx_cli_toolkit/data_quality_utilities.py:141-221 | one resource's entry, or the TypeError of the `due_date` comparison, then the KeyError of `last_modified`, then the ValueError of `float()` for a resource with indicators, in that order |
| Timeliness.TimelinessResourcesOk | src/hdx_cli_toolkit/data_quality_utilities.py:140-221 | the loop succeeds iff every resource's iteration does, and entry i is then the entry of resource i |
| Timeliness.TimelinessResourcesFailure | src/hdx_cli_toolkit/data_quality_utilities.py:140-221 | a failing loop fails with the failure of some resource's iteration |
| Timeliness.TimelinessResourcesStop | src/hdx_cli_toolkit/data_quality_utilities.py:140-221 | once a prefix of the resources fails, later resources do not change the outcome |
| Timeliness.MaxCadence | src/hdx_cli_toolkit/data_quality_utilities.py:227-229 | the maximum of the cadences over the resources, each defaulting to 1, bounds every one of them and is attained |
| Timeliness.TimelinessHeaderEntries | src/hdx_cli_toolkit/data_quality_utilities.py:113-126 | the header entries: `is_fresh`, `is_crisis_relevant` and the update frequency |
| Timeliness.TimelinessSummary | src/hdx_cli_toolkit/data_quality_utilities.py:232-237 | the score is the cadence plus one for freshness plus one for crisis relevance |
| Timeliness.ResourceTimelinessEntry | src/hdx_cli_toolkit/data_quality_utilities.py:141-221 | the loop body produces the specified entry or raises the specified error |
| Timeliness.TimelinessEntries | src/hdx_cli_toolkit/data_quality_utilities.py:136-221 | the resource loop produces the specified entries, up to the first failing resource, whose error it reports; the entries so far are always the entries of a prefix of the resources |
| Timeliness.TimelinessOf | src/hdx_cli_toolkit/data_quality_utilities.py:108-239 | the timeliness section and score, or the failure of the resource loop or of `max()`; TimelinessFailure states when it fails and with which error, TimelinessScore the score range |
| Timeliness.TimelinessFailure | src/hdx_cli_toolkit/data_quality_utilities.py:108-239 | fails exactly when there are no resources, `due_date` is absent or neither `None` nor text, `last_modified` is missing, or the frequency is no number and some resource has indicators; the error is NoResources, then TypeMismatch, then MissingKey("last_modified"), then NotANumber |
| Timeliness.TimelinessScore | src/hdx_cli_toolkit/data_quality_utilities.py:108-239 | on success every resource entry succeeds, the dataset cadence is in [1, 3] and bounds every resource's cadence, and the score is cadence + `is_fresh` + crisis relevance (crisis tags and frequency "0") and lies in [1, 5] |
| Accessibility.FormatTier | src/hdx_cli_toolkit/data_quality_utilities.py:258-268 | the tier of the upper-cased format; FormatTierValues and FormatTierIgnoresCase state which lists give which tier |
| Accessibility.FormatTierIgnoresCase | src/hdx_cli_toolkit/data_quality_utilities.py:258 | the format tier depends only on the upper-cased format |
| Accessibility.FormatTierValues | src/hdx_cli_toolkit/data_quality_utilities.py:258-268 | tier 2, 1 or 0 exactly when the upper-cased format is in the first, second or third list; no tier otherwise |
| Accessibility.FormatScore | src/hdx_cli_toolkit/data_quality_utilities.py:258-268 | the chain of tests returns the specified tier |
| Accessibility.CountHxlated | src/hdx_cli_toolkit/data_quality_utilities.py:287-290 | one point per hxlated sheet, at most one per sheet; Accessibility.ResourceScoreParts states how the points enter the resource score |
| Accessibility.CountHxlatedSheets | src/hdx_cli_toolkit/data_quality_utilities.py:287-290 | the sheet loop counts the hxlated sheets |
| Accessibility.HxlatedSheetCount | src/hdx_cli_toolkit/data_quality_utilities.py:280-290 | the hxlated-sheet points of a resource come from its last completed fs check, if any |
| Accessibility.SchemaChanges | src/hdx_cli_toolkit/data_quality_utilities.py:296-299 | the number of checks that are schema changes (`IsSchemaChange`: containing "*" and not "nrows"), at most the number of checks; Accessibility.SchemaChangeCount is the loop proved equal to it |
| Accessibility.SchemaChangeCount | src/hdx_cli_toolkit/data_quality_utilities.py:295-299 | the loop counts the checks containing "*" and not "nrows" |
| Accessibility.EmptyHistoryHxlated | src/hdx_cli_toolkit/data_quality_utilities.py:280-290 | on an empty `fs_check_info` list the corrected lookup counts no hxlated sheet, where the code as written raises |
| Accessibility.ResourceAccessOf | src/hdx_cli_toolkit/data_quality_utilities.py:255-302 | the entry and score of one resource, or the unknown-format failure; ResourceScoreParts, ResourceAccessOfTier and ResourceAccessOfOk state its parts |
| Accessibility.Scan | src/hdx_cli_toolkit/data_quality_utilities.py:254-305 | the resource loop over the outcomes, stopping at the first failure; ScanOk, ScanFailure, ScanEntries and ScanStopsAtFailure state its result |
| Accessibility.ResourceAccessibilityEntry | src/hdx_cli_toolkit/data_quality_utilities.py:255-302 | the loop body produces the specified resource entry and score |
| Accessibility.ResourceAccessOfTier | src/hdx_cli_toolkit/data_quality_utilities.py:270-302 | with a known tier, the entry is "{tier} ({FORMAT})" with the HAPI, hxlated and schema-change fields, and the score is tier + HAPI + hxlated sheets + (exactly one schema change) |
| Accessibility.ResourceAccessOfOk | src/hdx_cli_toolkit/data_quality_utilities.py:257-270 | a scored resource has a known tier, keeps its name and has the format text "{tier} ({FORMAT})" |
| Accessibility.ResourceScoreParts | src/hdx_cli_toolkit/data_quality_utilities.py:255-302 | fails with the unknown format iff the format is in no list; `in_hapi` iff the id is in the HAPI set; `is_hxlated` iff some hxlated sheet; the score lies between the tier and tier + 2 + hxlated sheets, and reaches the top iff in HAPI with exactly one schema change |
| Accessibility.ScoreResources | src/hdx_cli_toolkit/data_quality_utilities.py:252-305 | the resource loop returns the specified entries and maximum, or stops at the first unknown format |
| Accessibility.AccessibilityEntries | src/hdx_cli_toolkit/data_quality_utilities.py:242-310 | the scorer returns the specified report and score; on failure `n_tags` is already set and fewer entries than resources were added |
| Accessibility.AccessibilityOfScan | src/hdx_cli_toolkit/data_quality_utilities.py:304-309 | the dataset score is the best resource score plus one for a non-empty tag list |
| Accessibility.ScanStopsAtFailure | src/hdx_cli_toolkit/data_quality_utilities.py:254-268 | after the fatal stop, later resources do not matter |
| Accessibility.ScanOk | src/hdx_cli_toolkit/data_quality_utilities.py:254-268 | the scan succeeds iff every resource succeeds |
| Accessibility.ScanFailure | src/hdx_cli_toolkit/data_quality_utilities.py:254-268 | a failed scan reports the first failing resource |
| Accessibility.ScanEntries | src/hdx_cli_toolkit/data_quality_utilities.py:303-305 | one entry per resource, in order; the maximum bounds every score and is 0 or attained |
| Accessibility.AccessibilityEntriesAt | src/hdx_cli_toolkit/data_quality_utilities.py:254-303 | in a successful report each entry has its resource's name and format text |
| Accessibility.AccessibilityIgnoresGroups | src/hdx_cli_toolkit/data_quality_utilities.py:307-309 | the groups do not change whether the scorer succeeds or its score |
| Accessibility.AccessibilityOf | src/hdx_cli_toolkit/data_quality_utilities.py:242-310 | the accessibility section and score; AccessibilityScore states when it fails and what it holds |
| Accessibility.AccessibilityScore | src/hdx_cli_toolkit/data_quality_utilities.py:242-310 | succeeds iff every format is known; otherwise it fails at the first unknown format; `n_tags` = tags + groups; one entry per resource; the score is at least the tag bonus |
| Interpretability.HasDataDictionary | src/hdx_cli_toolkit/data_quality_utilities.py:329-345 | the data-dictionary flag over the resources; InterpretabilityScore states when it is 1 |
| Interpretability.InterpretabilityOf | src/hdx_cli_toolkit/data_quality_utilities.py:313-348 | one entry per resource and the data-dictionary flag; stated by InterpretabilityScore |
| Interpretability.InterpretabilityScore | src/hdx_cli_toolkit/data_quality_utilities.py:329-347 | the score is 1 iff some resource is datastore-active or its lower-cased name contains "dictionary" and "data", else 0 |
| Interpretability.DataDictionaryNameIgnoresCase | src/hdx_cli_toolkit/data_quality_utilities.py:339 | the data-dictionary test ignores case |
| Interoperability.InteropEntry | src/hdx_cli_toolkit/data_quality_utilities.py:360-372 | one resource's entry from `p_coded` and its schemas' geo tags, or the KeyError of `summarise_schema` |
| Interoperability.InteropScan | src/hdx_cli_toolkit/data_quality_utilities.py:359-374 | the entries in order and the geodenomination flag, stopping at the first failure; stated by InteropScanSpec and InteropScanFailure |
| Interoperability.ResourceInteropEntry | src/hdx_cli_toolkit/data_quality_utilities.py:360-372 | the loop body gives the specified entry |
| Interoperability.InteropScanStopsAtFailure | src/hdx_cli_toolkit/data_quality_utilities.py:359-372 | after a failing resource, later resources do not matter |
| Interoperability.InteropScanSpec | src/hdx_cli_toolkit/data_quality_utilities.py:358-374 | succeeds iff every resource succeeds; the entries are the resource entries in order; the flag is 1 iff some entry is p-coded or has a geo HXL tag |
| Interoperability.InteropScanFailure | src/hdx_cli_toolkit/data_quality_utilities.py:359-372 | a failure reports the first failing resource |
| Interoperability.InteroperabilityOf | src/hdx_cli_toolkit/data_quality_utilities.py:351-376 | the interoperability section and score; stated by InteroperabilityScore |
| Interoperability.InteroperabilityScore | src/hdx_cli_toolkit/data_quality_utilities.py:351-376 | succeeds iff every schema summary succeeds; the score is 1 iff some resource is p-coded or its schemas carry "#geo+lat", "#geo+lon" or "#geo+coord", else 0 |
| QualityReports.DataQualityScores | src/hdx_cli_toolkit/data_quality_utilities.py:33-68 | the score card of a compilation, or the failure of the first failing scorer; DataQualityScoreRanges states the error cases and score ranges |
| QualityReports.Combine | src/hdx_cli_toolkit/data_quality_utilities.py:52-68 | the score card holds the five dimension scores and findability 0; the first failing dimension decides the error |
| QualityReports.QualityReport.constructor | src/hdx_cli_toolkit/data_quality_utilities.py:52-59 | a new report has its dataset name, six zero scores and no sections |
| QualityReports.QualityReport.AddRelevanceEntries | src/hdx_cli_toolkit/data_quality_utilities.py:71-105 | without metadata nothing changes; otherwise only the relevance section and score change |
| QualityReports.QualityReport.AddTimelinessEntries | src/hdx_cli_toolkit/data_quality_utilities.py:108-239 | only the timeliness section and score change: a blank section without metadata; on failure the header and the entries of the resources before the failing one, and the score unchanged |
| QualityReports.QualityReport.AddAccessibilityEntries | src/hdx_cli_toolkit/data_quality_utilities.py:242-310 | only the accessibility section and score change; on the fatal stop the partial section stays |
| QualityReports.QualityReport.AddInterpretabilityEntries | src/hdx_cli_toolkit/data_quality_utilities.py:313-348 | without metadata the scorer fails after creating the empty section; otherwise only its section and score change |
| QualityReports.QualityReport.AddInteroperabilityEntries | src/hdx_cli_toolkit/data_quality_utilities.py:351-376 | the same for interoperability, which also fails when a schema summary fails |
| QualityReports.CompileDataQualityReport | src/hdx_cli_toolkit/data_quality_utilities.py:33-68 | the outcome is the specified score card; on success the report holds the name, that card and every section the scorers define |
| QualityReports.DataQualityScoreRanges | src/hdx_cli_toolkit/data_quality_utilities.py:52-68 | no metadata and no resources are errors; otherwise relevance is in [1, 9], timeliness in [1, 5], interpretability and interoperability are at most 1, and findability is 0 |
| Benchmark.FlagCount | scripts/data_quality_benchmark.py:69-83 | the sum of the four resource flags, at most 4; Benchmark.FlagScanFlags and Benchmark.FlagScanFormat state when each flag is set, Benchmark.EquivalentScoreBounds how the sum enters the score |
| Benchmark.Features | scripts/data_quality_benchmark.py:59-61 | `in_dataseries`, `in_data_grids` and `in_signals` with Python truthiness, in loop order; Benchmark.EquivalentScoreBounds states how they enter the score |
| Benchmark.LeadingDigit | scripts/data_quality_benchmark.py:74 | `int(s[0])`: a digit iff the first character is one; an empty string raises `IndexError` |
| Benchmark.ScoreOrZero | scripts/data_quality_benchmark.py:36-39 | a `KeyError` becomes 0; other outcomes pass through |
| Benchmark.ResourceFlags | scripts/data_quality_benchmark.py:73-81 | the resource loop computes the specified flags |
| Benchmark.CalculateEquivalentScore | scripts/data_quality_benchmark.py:55-95 | the tally equals the specified equivalent score of the report's state |
| Benchmark.FlagScan | scripts/data_quality_benchmark.py:73-81 | the four resource flags, or the failure of a format text without a leading digit; stated by FlagScanOk, FlagScanFormat, FlagScanFlags and FlagScanFailure |
| Benchmark.FlagScanStopsAtFailure | scripts/data_quality_benchmark.py:73-81 | once a resource raises, later resources do not matter |
| Benchmark.FlagScanOk | scripts/data_quality_benchmark.py:73-81 | the loop finishes iff every format text starts with a digit |
| Benchmark.FlagScanFormat | scripts/data_quality_benchmark.py:74-75 | the format flag is set iff some leading digit is ≥ 1 |
| Benchmark.FlagScanFlags | scripts/data_quality_benchmark.py:76-81 | `in_hapi`, `is_hxlated` and `stable_schema` are each set iff some resource has them, `n_schema_changes == 0` for the last |
| Benchmark.FlagScanFailure | scripts/data_quality_benchmark.py:73-81 | a raising loop reports the first bad format text |
| Benchmark.AnyPCodedSpec | scripts/data_quality_benchmark.py:88-92 | the p-coded point is set iff some interoperability entry is p-coded |
| Benchmark.EquivalentScore | scripts/data_quality_benchmark.py:55-95 | the equivalent score of a report state; EquivalentScoreBounds and EquivalentScoreDone state its range and when it succeeds |
| Benchmark.EquivalentScoreBounds | scripts/data_quality_benchmark.py:55-95 | the score lies in [4, 14]; minus the constant 4 it lies between the relevance tally and that tally + 7 |
| Benchmark.TagPoint | scripts/data_quality_benchmark.py:67-68 | `n_tags` ≥ 2 adds exactly 1 |
| Benchmark.FormatScoreLeadingDigit | src/hdx_cli_toolkit/data_quality_utilities.py:270 | the leading digit of "{tier} ({FORMAT})" is the tier |
| Benchmark.FormatTextDigits | scripts/data_quality_benchmark.py:74 | on a compiled report every format text's leading digit is its resource's tier |
| Benchmark.FormatTextFlags | scripts/data_quality_benchmark.py:74-75 | on compiled entries the format flag is set iff some resource's tier is ≥ 1 |
| Benchmark.CompiledReportScores | scripts/data_quality_benchmark.py:55-95 | a report compiled by the scorers never makes the tally raise, and its format flag means some format is in the first two tiers |
| Benchmark.EquivalentScoreDone | scripts/data_quality_benchmark.py:55-95 | the tally succeeds iff all four consulted sections are present and every format text starts with a digit |
| Utilities.CensorSecret | src/hdx_cli_toolkit/utilities.py:153-168 | keeps the length; a secret shorter than 10 becomes all "*"; otherwise the first len−10 characters become "*" and the last 10 are kept |
| Utilities.CensorSecretReveals | src/hdx_cli_toolkit/utilities.py:164-168 | only the last ten characters can show through, each unchanged; censoring twice equals censoring once |
| Utilities.CensorSecretExamples | tests/test_utilities.py:46-53 | "012345" becomes "******" and "ABCDEF0123456789" becomes "******0123456789" |
| Utilities.StrToBool | src/hdx_cli_toolkit/utilities.py:171-182 | True iff the lower-cased text is "true" |
| Utilities.StrToBoolRoundTrip | src/hdx_cli_toolkit/utilities.py:171-182 | parsing the text of a boolean gives it back |
| Utilities.MakeConversionFunc | src/hdx_cli_toolkit/utilities.py:185-209 | the type name is returned; a converter exactly for bool, int, float and str, returning that type |
| Utilities.MakeConversionFuncExamples | tests/test_utilities.py:121-125 | 1, "string", 1.4 and True give "int", "str", "float" and "bool" |
| Utilities.ParseDigits | src/hdx_cli_toolkit/utilities.py:197-209 | a number exactly for a non-empty string of decimal digits |
| Utilities.ParseDigitsRoundTrip | src/hdx_cli_toolkit/utilities.py:197-209 | parsing the decimal text of a number gives it back |
| Utilities.ParseInt | src/hdx_cli_toolkit/utilities.py:197-209 | `int()` of an optional "-" and decimal digits; ParseIntRoundTrip states it inverts the integer text |
| Utilities.ParseIntRoundTrip | src/hdx_cli_toolkit/utilities.py:197-209 | `int()` of the text of any integer gives it back |
| Utilities.Convert | src/hdx_cli_toolkit/utilities.py:185-209 | the chosen converter applied to a text; ConvertRoundTrip states it inverts the value text |
| Utilities.ConvertRoundTrip | src/hdx_cli_toolkit/utilities.py:185-209 | for bool, int and str, the chosen converter turns the value's text back into the value |
| Utilities.WriteDictionaryStatus | src/hdx_cli_toolkit/utilities.py:53-71 | names the file; "being deleted" iff not append and not newfile; "being appended" iff append and not newfile; "being created" iff newfile |
| Utilities.StatusSuffixes | src/hdx_cli_toolkit/utilities.py:64-70 | the three status texts end differently |
| Utilities.RowsBeforeStray | src/hdx_cli_toolkit/utilities.py:46 | the rows `writerows` writes before the first row with a key outside the header: all before it fit, and it does not |
| Utilities.WriteDictionary | src/hdx_cli_toolkit/utilities.py:16-50 | no rows raise `IndexError`; the header is the first row's keys; the file is removed iff not append and it exists; the header is written iff not append or no file exists; at least one row is written, every written row fits the header, and `writerows` raises (no status) iff some row has a key outside the header, at the first such row; on success all rows are written, the status names the file, "being deleted" is never returned, "appended" iff append onto an existing file, "created" otherwise |
| Attributes.AddRow | src/hdx_cli_toolkit/utilities.py:246-252 | list attributes stay lists and others stay single values |
| Attributes.Collect | src/hdx_cli_toolkit/utilities.py:230-252 | the fold keeps the two kinds of attribute apart |
| Attributes.FirstMismatch | src/hdx_cli_toolkit/utilities.py:231-242 | the index of the first row with other columns: every earlier row has the five attribute columns |
| Attributes.ReadAttributesCsv | src/hdx_cli_toolkit/utilities.py:225-252 | the row loop returns the fold of the rows before the first header mismatch |
| Attributes.KindOf | src/hdx_cli_toolkit/utilities.py:225-264 | a path is CSV iff its lower case ends in ".csv", JSON iff it ends in ".json" and not ".csv" |
| Attributes.ReadAttributes | src/hdx_cli_toolkit/utilities.py:212-268 | a CSV file gives the fold of its rows; an unrecognised extension gives `{}` |
| Attributes.OfDataset | src/hdx_cli_toolkit/utilities.py:244-245 | the rows of one dataset, in order |
| Attributes.OtherDatasetsIgnored | src/hdx_cli_toolkit/utilities.py:244-245 | rows for other dataset names do not change the result |
| Attributes.ListAttributesAccumulate | src/hdx_cli_toolkit/utilities.py:246-250 | "resource", "skip_country", "showcase" and "tags" are present iff some row sets them, holding those rows' values in row order |
| Attributes.LastWriteWins | src/hdx_cli_toolkit/utilities.py:251-252 | any other attribute holds the value of its last row, and is absent when no row sets it |
| Attributes.StopsAtMismatch | src/hdx_cli_toolkit/utilities.py:231-242 | rows after a header mismatch are never read |
| Attributes.FirstMismatchPrefix | src/hdx_cli_toolkit/utilities.py:231-242 | the first mismatch in a prefix is the first mismatch of the whole file |
| Attributes.AllRowsRead | src/hdx_cli_toolkit/utilities.py:230-252 | with every header well formed, every row is folded |
| TablePrinter.FieldWidth | src/hdx_cli_toolkit/utilities.py:110-112 | fails with a `KeyError` unless every row has the field; otherwise it is the maximum of the field name's length and the value lengths, and is attained |
| TablePrinter.ColumnWidth | src/hdx_cli_toolkit/utilities.py:114-116 | the width + 1, or `truncate_width` when the maximum exceeds it; never above `truncate_width` + 1 |
| TablePrinter.ColumnWidthFits | src/hdx_cli_toolkit/utilities.py:110-116 | a column is wider than every value unless truncated, and a truncated column is exactly `truncate_width` |
| TablePrinter.HeaderWidths | src/hdx_cli_toolkit/utilities.py:108-116 | a width for exactly the included fields, each its column width; fails iff some field is missing from some row |
| TablePrinter.HeaderWidthsError | src/hdx_cli_toolkit/utilities.py:109-112 | the error is the `KeyError` of the first field missing from some row |
| TablePrinter.HeaderWidthsStopsAtError | src/hdx_cli_toolkit/utilities.py:109-112 | later fields do not matter once one fails |
| TablePrinter.MaxFieldWidth | src/hdx_cli_toolkit/utilities.py:110-112 | the loop computes the specified field width |
| TablePrinter.ColumnWidths | src/hdx_cli_toolkit/utilities.py:108-116 | the loop builds the specified width dictionary |
| TablePrinter.Dedup | src/hdx_cli_toolkit/utilities.py:108-116 | the dictionary's keys: the same fields without repetition |
| TablePrinter.DedupDistinct | src/hdx_cli_toolkit/utilities.py:108-116 | distinct fields are kept as they are |
| TablePrinter.Shown | src/hdx_cli_toolkit/utilities.py:134-136 | the printed columns are the included fields that are not excluded |
| TablePrinter.Cell | src/hdx_cli_toolkit/utilities.py:137 | "|" followed by exactly `width` characters: the text truncated to `width`, padded with spaces |
| TablePrinter.Cells | src/hdx_cli_toolkit/utilities.py:134-147 | a run of cells has the widths plus one bar per column |
| TablePrinter.HeaderLine | src/hdx_cli_toolkit/utilities.py:134-138 | the header line has the shown widths plus one bar per column plus the closing bar, and starts and ends with "|" |
| TablePrinter.RowLine | src/hdx_cli_toolkit/utilities.py:142-148 | the same for a data row |
| TablePrinter.RowLines | src/hdx_cli_toolkit/utilities.py:141-148 | one line per row, in order |
| TablePrinter.Table | src/hdx_cli_toolkit/utilities.py:94-95 | an empty list of rows prints nothing |
| TablePrinter.TableLayout | src/hdx_cli_toolkit/utilities.py:94-150 | with rows and known widths: an optional warning when the total width exceeds the maximum, three rules of `total_width` dashes around the header, one line per row and a closing rule |
| TablePrinter.TableRules | src/hdx_cli_toolkit/utilities.py:132-150 | every rule line is `total_width` dashes |
| TablePrinter.TableCells | src/hdx_cli_toolkit/utilities.py:134-148 | the header and row lines have the specified widths |
| TablePrinter.TotalWidth | src/hdx_cli_toolkit/utilities.py:118-122 | the widths of the shown header keys plus one per header key, less one, as written; LinesAgainstRules relates it to the line widths |
| TablePrinter.LinesAgainstRules | src/hdx_cli_toolkit/utilities.py:118-148 | with no exclusions and distinct fields, header and row lines are exactly two longer than the rules |
| TablePrinter.ThreeColumnWidths | tests/test_utilities.py:98-100 | the three-column example's widths are 9 each |
| TablePrinter.ThreeColumnTotals | tests/test_utilities.py:98-109 | its total width is 29 and its lines are 31 wide |
| TablePrinter.ThreeColumnExample | tests/test_utilities.py:98-109 | the three-column example prints five lines of 29 or 31 characters |

## Left out

- HTTP, remote APIs and files: `read_metadata_from_hdx`, `lucky_dip_search`, the HAPI resource-id fetch and the Data-Grid CSV read. The HAPI ids and the Data-Grid names are parameters. The metadata is passed in already decoded, so `reformat_metadata_keys` (a `json.loads`) is not modelled.
- Clock-dependent fields are not modelled, because they read `datetime.now()`: `days_since_last_modified`, `days_since_last_update`, `days_since_last_data_change`, the per-resource `is_fresh`, and the day intervals of `update_cadence`.
- Timeliness.ResourceTimelinessOf: `float()` is not interpreted; whether the update frequency parses is the abstract `parsesAsFloat` of the `CadenceStats` parameter. A `ValueError` of `fromisoformat` on a malformed `last_modified` or check date is not modelled, since the dates feed only the clock-dependent day counts.
- Timeliness.ResourceCadence: the floating-point mean and standard-deviation tests are abstract predicates of a `CadenceStats` parameter. The model states what the integer cadence count does with them, not how the ratios are computed.
- `hash_row` from the `hxl` library is an uninterpreted function parameter.
- Console output is not modelled: `print_resource_summary`, the "Ceasing execution" messages, the printed error messages, `print_banner` and `main`. The `sys.exit` on an unknown format is kept as the `UnknownFormat` error.
- Findability scoring is a stub in the source. Its score stays 0 and nothing else is modelled.
- Case mapping (`upper()`, `lower()`) is ASCII only.
- Benchmark.LeadingDigit: only the ASCII digits '0' to '9' count as digits; the other Unicode decimal digits that `int(s[0])` also accepts are not modelled. A compiled report's format texts start with an ASCII tier digit (Benchmark.FormatTextDigits), so this matters only for hand-made reports.
- Utilities.ConvertRoundTrip: `int()` is modelled for an optional "-" followed by decimal digits only. Surrounding whitespace, "+" and underscores are not modelled. `float()` is not interpreted, so float values are outside the round trip.
- Utilities.WriteDictionary: the CSV bytes written are not modelled. The model states which file operations take place, how many rows are written before `writerows` raises, and the status returned.
- Attributes.ReadAttributes: the JSON branch is not interpreted, because it needs `json.load` of a file, so it returns no result. In the source, that branch leaves `attributes` unbound, so the `return` raises `UnboundLocalError`, when no list entry carries the dataset's name and when the JSON value is neither a dictionary nor a list; a list entry without a "name" key raises `KeyError`.
- Attributes.ReadAttributes: `csv.DictReader` rows with missing or extra fields are given by their keys alone. The `None` values and the `None` key are not modelled.
- TablePrinter.Table: dataclass rows (`dataclasses.asdict`) are not modelled. A negative `truncate_width` is excluded by its `nat` type. The table is modelled as the list of lines it prints: there is no method with a loop for the header and row print loops (utilities.py:134-148), only the functions `Cells`, `RowLines` and `TableLines`.
- TablePrinter.TotalWidth: this is modelled as written. The source counts every key of `column_table_header_dict`, excluded or not (`len(column_table_header_dict)`). Without exclusions the rows are two characters longer than the rules. Each excluded field shortens the rows by its width plus one, but the rules only by its width.
- Schemas.ResourceSchemas (and with it Interoperability.InteroperabilityOf): uses the corrected CheckHistory.LastCompleteCheck, so a resource whose `fs_check_info` is an empty list gives no fingerprints, where the source raises `UnboundLocalError` (see "## Findings" and Schemas.EmptyHistorySchemas).
- Accessibility.HxlatedSheets (and with it Accessibility.AccessibilityOf): uses the corrected lookup, so an empty `fs_check_info` list counts no hxlated sheet, where the source raises `UnboundLocalError` (Accessibility.EmptyHistoryHxlated).
- StableSchema.CheckSummary (and with it StableSchema.Summaries): uses the corrected lookup, so an empty `fs_check_info` list gives no sheet lines, where the source raises `UnboundLocalError` (StableSchema.EmptyHistorySummary).
- QualityReports.DataQualityScores: through the scorers above, a dataset with an empty `fs_check_info` list is scored with the corrected lookup rather than raising.
- The model follows the code where the code departs from the documented scoring:
  - the cadence count runs from 1 to 3, not 0 to 2;
  - the silver format list spells "GEOSERVICE";
  - the bronze list has no PNG;
  - a stable schema earns its accessibility point for exactly one schema change, not none;
  - there is no total, priority or normalised score.
- The expectation that a nonexistent dataset yields no scores is not stated: the source always writes the six score keys, and then fails in the interpretability scorer (`NoMetadata`).

## Findings

| source | as written | input that shows it | evidently intended | confidence | as-written member | corrected member |
|---|---|---|---|---|---|---|
| src/hdx_cli_toolkit/data_quality_utilities.py:724-738 (and src/hdx_cli_toolkit/stable_schema_utilities.py:189-203) | when the history list is empty, the `for` loop never binds `check`, so the error f-string raises `UnboundLocalError` | a resource with `"fs_check_info": []` | return `{}` with the "could not find an '…' check" error | not executed | CheckHistory.LastCompleteCheckAsWritten (with CheckHistory.EmptyHistoryRaises) | CheckHistory.LastCompleteCheck (with CheckHistory.FsLastCompleteCheck and CheckHistory.ShapeLastCompleteCheck) |

The rest of the model uses the corrected lookup: `summarise_schema` (Schemas.ResourceSchemas, called from the interoperability scorer), the hxlated-sheet count of the accessibility scorer (Accessibility.HxlatedSheets) and `summarise_resource` (StableSchema.CheckSummary). On an empty history list they model the evidently intended "no completed check" branch; Schemas.EmptyHistorySchemas, Accessibility.EmptyHistoryHxlated and StableSchema.EmptyHistorySummary state what they give there, against the code as written, which raises.

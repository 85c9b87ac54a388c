# Deal desk backend: a Dafny model of its persistence and service core

The deal desk backend underwrites commercial real estate deals. A user
creates a deal and uploads offering memoranda. A document processor reads
their text and tables. A language model turns the text into extracted fields,
and those fields are checked against market benchmarks. Assumption sets feed
a small valuation model, and the results are exported as a workbook.
Comparable sales ("comps") are gathered from Rentcast and from a Tavily web
search.

This project models the core of that backend:

- the keyed upsert the comp, field-validation and assumption repositories
  share ("select by key, overwrite the one match, insert when absent, fail on
  several");
- the comps search and its replace-all-comps-of-the-deal step;
- the combined provider's address de-duplication;
- the Rentcast and Tavily mappings of provider records to comps;
- the SQL repositories as classes over row sequences;
- the services that drive them, with every external collaborator as an
  oracle: a language model, an HTTP or search call, file storage, the PDF
  library;
- the row/entity mappers, with their round trips;
- the PDF page and table shaping;
- the in-memory repositories that the backend's test suite substitutes for
  the SQL ones.

Entities are datatypes. Repositories and services are classes whose fields
the methods update. Every clock reading, fresh id and external answer is a
parameter or an oracle, so every method is deterministic in its inputs.

Files:

| file | module | models |
|---|---|---|
| domain.dfy | Domain | entities, enums and their string values, error kinds |
| text.dfy | Text | `strip`, `lower`, slicing, joining, decimal rendering, string order |
| queries.dfy | Queries | `WHERE` (order-keeping filter), `ORDER BY` (sort), keeping present values |
| keyed_upsert.dfy | KeyedUpsert | the shared select-then-update-or-insert loop |
| oracles.dfy | Oracles | external collaborators: call log plus answer function |
| document_repo.dfy | DocumentRepo | the document table and its processing-step list |
| tables.dfy | Tables | the deal, extracted-field, market-table, model-result and export tables |
| comp_repo.dfy | CompRepo | the comp table |
| field_validation_repo.dfy | FieldValidationRepo | the field-validation table |
| assumption_repo.dfy | AssumptionRepo | the assumption-set and assumption tables |
| combined_provider.dfy | CombinedProvider | merging and de-duplicating the two providers' comps |
| rentcast_provider.dfy | RentcastProvider | the Rentcast query and record mapping |
| tavily_provider.dfy | TavilyProvider | the Tavily queries, the LLM reply cleaning and item mapping |
| comps_service.dfy | CompsService | searching and listing comps |
| deal_service.dfy | DealService | creating, reading, listing and updating deals |
| document_service.dfy | DocumentService | upload and the processing pipeline |
| validation_service.dfy | ValidationService | checking extracted fields against the market |
| benchmark_service.dfy | BenchmarkService | turning LLM benchmark suggestions into assumptions |
| model_engine.dfy | ModelEngine | the valuation formula |
| model_service.dfy | ModelService | running the valuation for an assumption set |
| export_service.dfy | ExportService | writing the workbook and recording the export |
| mappers.dfy | Mappers | entity/row conversion |
| pdf_processor.dfy | PdfProcessor | page text and table shaping |
| in_memory_repos.dfy | InMemoryRepos | the test suite's in-memory repositories |

## Model

| member | source | states |
|---|---|---|
| Queries.SortBySorted | backend/app/infrastructure/persistence/deal_repo.py:41 | `ORDER BY` yields the rows sorted under the order and as a permutation of the input |
| Queries.FilterMembers | backend/app/infrastructure/persistence/extraction_repo.py:40-44 | a `WHERE` keeps exactly the rows that satisfy the condition |
| Queries.FilterFilter | backend/app/infrastructure/persistence/deal_repo.py:36-40 | two successive `WHERE` clauses, the second implying the first, select what the second alone selects |
| KeyedUpsert.Lookup | backend/app/infrastructure/persistence/comp_repo.py:21-26 | `scalar_one_or_none()` on a key: absent exactly when no row has the key; one index when exactly that row has it; ambiguous only on a table with duplicate keys |
| KeyedUpsert.Find | backend/app/infrastructure/persistence/assumption_repo.py:35-39 | `get_by_id`: the row returned is stored and has the key, and on a table with unique keys None means no row has it |
| KeyedUpsert.UniqueNotAmbiguous | backend/app/infrastructure/persistence/comp_repo.py:26 | a unique key never makes `scalar_one_or_none()` raise |
| KeyedUpsert.UpsertOneFacts | backend/app/infrastructure/persistence/comp_repo.py:20-55 | one iteration succeeds on a unique table, keeps keys unique, hands back a row with the input's key, overwrites only the row with that key or appends the input |
| KeyedUpsert.UpsertAllFacts | backend/app/infrastructure/persistence/comp_repo.py:18-57 | the whole loop succeeds on a unique table, keeps keys unique, hands back one row per input with that input's key, never moves a row and leaves rows whose key is not input unchanged |
| KeyedUpsert.UpsertAllLastWins | backend/app/infrastructure/persistence/comp_repo.py:18-57 | when an input key occurs again later, the row stored for it is the one handed back for its last occurrence |
| KeyedUpsert.UpsertAllAgrees | backend/app/infrastructure/persistence/comp_repo.py:28-55 | every handed-back row agrees with its input on the columns the merge copies |
| KeyedUpsert.UpsertAllKeeps | backend/app/infrastructure/persistence/comp_repo.py:28-49 | every existing row keeps the identity columns the merge does not write |
| KeyedUpsert.UpsertAllKeySet | backend/app/infrastructure/persistence/comp_repo.py:18-57 | afterwards a key is stored exactly when it was stored before or was input |
| KeyedUpsert.UpsertOneKeySet | backend/app/infrastructure/persistence/comp_repo.py:20-55 | one iteration adds exactly the input's key to the stored keys |
| KeyedUpsert.FilterKeepsUnique | backend/app/infrastructure/persistence/comp_repo.py:64-67 | deleting rows keeps the key constraint |
| KeyedUpsert.UpsertAllFresh | backend/app/infrastructure/persistence/comp_repo.py:50-55 | inputs whose keys are all new and distinct are appended in order and handed back unchanged |
| KeyedUpsert.UpsertAllDuplicateFails | backend/app/infrastructure/persistence/comp_repo.py:26 | two stored rows with the first input's key make the loop fail with MultipleResultsFound |
| KeyedUpsert.UpsertAllErrSticks | backend/app/infrastructure/persistence/database.py:20-27 | once an iteration fails the whole call fails with that error (the session rolls back) |
| CompRepo.MergeCompKeepsKey | backend/app/infrastructure/persistence/comp_repo.py:28-46 | overwriting a comp never changes its deal and address |
| CompRepo.BulkUpsertSpec | backend/app/infrastructure/persistence/comp_repo.py:18-57 | `bulk_upsert` succeeds on a table unique on (deal, address), keeps it so, hands back one comp per input carrying its columns, keeps each existing row's id and key, and leaves comps with other addresses alone |
| CompRepo.BulkUpsertKeys | backend/app/infrastructure/persistence/comp_repo.py:18-57 | afterwards the stored (deal, address) pairs are the old ones plus the input ones |
| CompRepo.BulkUpsertLastWins | backend/app/infrastructure/persistence/comp_repo.py:18-57 | for an address input twice, the stored comp is the one handed back for the last occurrence |
| CompRepo.CompTable.BulkUpsert | backend/app/infrastructure/persistence/comp_repo.py:18-57 | the loop leaves the table and the result list the keyed upsert specifies, keeping the table unique |
| CompRepo.CompTable.GetByDealId | backend/app/infrastructure/persistence/comp_repo.py:59-62 | the comps of the deal, in table order, and only those |
| CompRepo.CompTable.DeleteByDealId | backend/app/infrastructure/persistence/comp_repo.py:64-67 | afterwards the table holds exactly the comps of other deals |
| CombinedProvider.Keys | backend/app/infrastructure/comps/combined_provider.py:50-55 | the set of keys seen contains the key of every comp |
| CombinedProvider.FirstWithKey | backend/app/infrastructure/comps/combined_provider.py:52-56 | the first position holding a key |
| CombinedProvider.DedupKeys | backend/app/infrastructure/comps/combined_provider.py:49-56 | the de-duplicated list is no longer than its input, has distinct address keys, and loses no key |
| CombinedProvider.DedupFirstOccurrences | backend/app/infrastructure/comps/combined_provider.py:49-56 | each kept comp is the first comp with its key, so Rentcast's comp wins an address both providers report |
| CombinedProvider.DedupOrder | backend/app/infrastructure/comps/combined_provider.py:49-56 | kept comps keep the order of their first occurrences |
| CombinedProvider.DedupSpec | backend/app/infrastructure/comps/combined_provider.py:49-56 | the de-duplication in full: shorter, distinct keys, same key set, first occurrences, in order |
| CombinedProvider.DedupDistinct | backend/app/infrastructure/comps/combined_provider.py:49-56 | a list whose keys are already distinct passes unchanged |
| CombinedProvider.DedupIdempotent | backend/app/infrastructure/comps/combined_provider.py:49-56 | de-duplicating twice is de-duplicating once |
| CombinedProvider.CombinedSpec | backend/app/infrastructure/comps/combined_provider.py:31-56 | a provider that raised contributes nothing; both raising gives no comps; the result is bounded by the two lists; a comp whose address Rentcast reported comes from Rentcast |
| CombinedProvider.SearchComps | backend/app/infrastructure/comps/combined_provider.py:26-59 | the extend-then-deduplicate loop returns the specified combination |
| CompsService.ReplacedSpec | backend/app/services/comps_service.py:40-43 | delete-then-upsert of fresh comps of one deal hands back exactly those comps, leaves the deal's stored comps equal to them, and leaves every other deal's comps unchanged |
| CompsService.CombinedKeysDistinct | backend/app/infrastructure/comps/combined_provider.py:49-56 | the combined provider's comps for one deal are distinct on the comp table's (deal, address) key |
| CompsService.CompsService.SearchComps | backend/app/services/comps_service.py:31-46 | an unknown deal fails with "Deal not found" and calls nothing; otherwise the provider is asked once with the deal and its extracted fields; a provider error or an empty answer leaves the table alone; a non-empty answer replaces the deal's comps |
| CompsService.CompsService.ListComps | backend/app/services/comps_service.py:48-49 | the deal's stored comps |
| FieldValidationRepo.MergeKeepsKey | backend/app/infrastructure/persistence/field_validation_repo.py:33-41 | overwriting a validation never changes its deal and field key |
| FieldValidationRepo.BulkUpsertSpec | backend/app/infrastructure/persistence/field_validation_repo.py:21-52 | `bulk_upsert` succeeds on a table unique on (deal, field key), keeps it so, hands back one validation per input carrying its verdict, keeps each row's id and key, and leaves other fields' validations alone |
| FieldValidationRepo.BulkUpsertDuplicate | backend/app/infrastructure/persistence/field_validation_repo.py:31 | two stored rows for the first input's key make the call fail with MultipleResultsFound |
| FieldValidationRepo.FieldValidationTable.BulkUpsert | backend/app/infrastructure/persistence/field_validation_repo.py:21-52 | the loop leaves the table and result the keyed upsert specifies, or on failure leaves the table unchanged |
| FieldValidationRepo.FieldValidationTable.GetByDealId | backend/app/infrastructure/persistence/field_validation_repo.py:54-59 | the deal's validations, and only those |
| AssumptionRepo.AssumptionSetTable.Create | backend/app/infrastructure/persistence/assumption_repo.py:28-33 | a set with a new id is appended |
| AssumptionRepo.AssumptionSetTable.GetById | backend/app/infrastructure/persistence/assumption_repo.py:35-39 | the set with that id, or None when there is none |
| AssumptionRepo.AssumptionSetTable.GetByDealId | backend/app/infrastructure/persistence/assumption_repo.py:41-48 | the deal's sets, newest first, as a permutation of the filtered rows; empty exactly when the deal has none; the first is a newest set |
| AssumptionRepo.NewestFirstHead | backend/app/infrastructure/persistence/assumption_repo.py:45 | in a newest-first list the head is at least as new as every member |
| AssumptionRepo.MergeKeepsKey | backend/app/infrastructure/persistence/assumption_repo.py:68-77 | overwriting an assumption never changes its set and key |
| AssumptionRepo.BulkUpsertSpec | backend/app/infrastructure/persistence/assumption_repo.py:55-89 | `bulk_upsert` succeeds on a table unique on (set, key), keeps it so, hands back one assumption per input carrying its values, keeps each row's id and key, and leaves other keys alone |
| AssumptionRepo.BulkUpsertKeys | backend/app/infrastructure/persistence/assumption_repo.py:55-89 | afterwards a set holds a key exactly when it held it before or an input brought it |
| AssumptionRepo.BulkUpsertDuplicate | backend/app/infrastructure/persistence/assumption_repo.py:66 | two stored rows for the first input's key make the call fail with MultipleResultsFound |
| AssumptionRepo.KeyOrderTotal | backend/app/infrastructure/persistence/assumption_repo.py:95 | ordering by key is a total preorder |
| AssumptionRepo.OverwriteAssumption | backend/app/infrastructure/persistence/assumption_repo.py:104-112 | `update` keeps the row's id and set and, for the row of the input's id, writes every other column of the input and a fresh `updated_at` |
| AssumptionRepo.AssumptionTable.BulkUpsert | backend/app/infrastructure/persistence/assumption_repo.py:55-89 | the loop leaves the table and result the keyed upsert specifies, or on failure leaves the table unchanged |
| AssumptionRepo.AssumptionTable.GetBySetId | backend/app/infrastructure/persistence/assumption_repo.py:91-98 | the set's assumptions, sorted by key, as a permutation of the filtered rows |
| AssumptionRepo.AssumptionTable.Update | backend/app/infrastructure/persistence/assumption_repo.py:100-115 | `scalar_one()`: no row is NoResultFound, several are MultipleResultsFound, both changing nothing; otherwise that row is overwritten |
| DocumentRepo.FirstNamed | backend/app/infrastructure/persistence/document_repo.py:76-77 | the first step with the name, or None exactly when no step has it |
| DocumentRepo.UpdateStepSpec | backend/app/infrastructure/persistence/document_repo.py:72-90 | a listed name replaces its first step and keeps the length, a new name is appended; other steps keep their places; afterwards the first step of that name is the new one |
| DocumentRepo.UpdateStepIdempotent | backend/app/infrastructure/persistence/document_repo.py:72-90 | recording the same step twice is recording it once |
| DocumentRepo.ReplaceOrAppend | backend/app/infrastructure/persistence/document_repo.py:73-88 | the loop with `break` computes the specified step list |
| DocumentRepo.NewestFirstTotal | backend/app/infrastructure/persistence/document_repo.py:41 | ordering by creation time, newest first, is a total preorder |
| DocumentRepo.DocumentTable.Create | backend/app/infrastructure/persistence/document_repo.py:24-29 | a document with a new id is appended |
| DocumentRepo.DocumentTable.GetById | backend/app/infrastructure/persistence/document_repo.py:31-35 | the document with that id, or None when there is none |
| DocumentRepo.DocumentTable.GetByDealId | backend/app/infrastructure/persistence/document_repo.py:37-44 | the deal's documents, newest first, as a permutation of the filtered rows |
| DocumentRepo.DocumentTable.Update | backend/app/infrastructure/persistence/document_repo.py:46-63 | an unknown id is NoResultFound and changes nothing; otherwise the row's mutable columns are overwritten in place with a fresh `updated_at`, and the status written is logged |
| DocumentRepo.DocumentTable.UpdateProcessingStep | backend/app/infrastructure/persistence/document_repo.py:65-94 | an unknown id is NoResultFound; otherwise only that row's step list changes (replace-first-or-append) and its `updated_at` |
| Tables.FilterDeals | backend/app/infrastructure/persistence/deal_repo.py:36-40 | every listed deal matches the property type and city filters |
| Tables.DealTable.Create | backend/app/infrastructure/persistence/deal_repo.py:21-26 | a deal with a new id is appended |
| Tables.DealTable.GetById | backend/app/infrastructure/persistence/deal_repo.py:28-32 | the deal with that id, or None when there is none |
| Tables.DealTable.List | backend/app/infrastructure/persistence/deal_repo.py:34-43 | the deals matching the filters, newest first; no matching deal is lost |
| Tables.DealTable.Update | backend/app/infrastructure/persistence/deal_repo.py:45-60 | an unknown id is NoResultFound and changes nothing; otherwise the editable columns are overwritten in place with a fresh `updated_at` |
| Tables.FieldsOfDeal | backend/app/infrastructure/persistence/extraction_repo.py:46-53 | the join returns exactly the fields whose document belongs to the deal |
| Tables.ExtractedFieldTable.BulkCreate | backend/app/infrastructure/persistence/extraction_repo.py:27-35 | the fields are appended and handed back |
| Tables.ExtractedFieldTable.GetByDocumentId | backend/app/infrastructure/persistence/extraction_repo.py:37-44 | the document's fields in table order |
| Tables.ExtractedFieldTable.GetByDealId | backend/app/infrastructure/persistence/extraction_repo.py:46-53 | the fields of the deal's documents |
| Tables.MarketTableTable.BulkCreate | backend/app/infrastructure/persistence/extraction_repo.py:60-66 | the tables are appended and handed back |
| Tables.MarketTableTable.GetByDocumentId | backend/app/infrastructure/persistence/extraction_repo.py:68-73 | the document's market tables in table order |
| Tables.Latest | backend/app/infrastructure/persistence/model_result_repo.py:33-37 | `ORDER BY computed_at DESC LIMIT 1`: None exactly for no rows, otherwise a row no older than any other |
| Tables.ModelResultTable.Create | backend/app/infrastructure/persistence/model_result_repo.py:22-27 | the result is appended |
| Tables.ModelResultTable.GetBySetId | backend/app/infrastructure/persistence/model_result_repo.py:29-38 | None exactly when the set has no result, otherwise a latest result of the set |
| Tables.ExportTable.Create | backend/app/infrastructure/persistence/export_repo.py:19-24 | the export is appended |
| Tables.ExportTable.GetByDealId | backend/app/infrastructure/persistence/export_repo.py:26-33 | the deal's exports, newest first, as a permutation of the filtered rows |
| DealService.UpdatedRowSpec | backend/app/services/deal_service.py:70-84 | `update_deal` writes each given attribute, keeps each omitted one, keeps the id and creation time, and stamps `updated_at` |
| DealService.NoChangesTouchesOnlyClock | backend/app/services/deal_service.py:79-82 | an update with no attribute changes only `updated_at` |
| DealService.ListIgnoresStatus | backend/app/services/deal_service.py:57-68 | the status filter has no effect on the deals listed |
| DealService.ListWithoutFilters | backend/app/services/deal_service.py:57-68 | with no property type and no city every deal is listed |
| DealService.BaseCaseOnly | backend/app/services/deal_service.py:48-50 | a new deal's only assumption set is its base case |
| DealService.DealService.CreateDeal | backend/app/services/deal_service.py:25-52 | the deal is stored with the given attributes and one clock reading for both timestamps, and a "Base Case" set for it is stored |
| DealService.DealService.GetDeal | backend/app/services/deal_service.py:54-55 | the deal with that id, or None |
| DealService.DealService.ListDeals | backend/app/services/deal_service.py:57-68 | the deals matching property type and city, newest first |
| DealService.DealService.UpdateDeal | backend/app/services/deal_service.py:70-84 | an unknown deal gives None and changes nothing; otherwise only that deal's row is rewritten with the changes applied |
| DocumentService.ToRawField | backend/app/services/document_service.py:141-147 | a page becomes a `page_text` field of its page number holding a prefix of its text of at most 2000 characters, the whole text when it is short enough |
| DocumentService.RawFieldsSpec | backend/app/services/document_service.py:138-147 | one raw field per page whose text is not blank under Python's `isspace` (Unicode white space included), none for blank pages, and none at all exactly when every page is blank |
| DocumentService.BuildRawFields | backend/app/services/document_service.py:138-147 | the loop builds the specified raw fields |
| DocumentService.RunSpec | backend/app/services/document_service.py:77-179 | the statuses follow the pipeline's path; the last is Complete exactly when nothing failed and Failed otherwise; each phase runs only after the previous one succeeded; the LLM sees exactly the raw fields; a missing file fails |
| DocumentService.ReplaySnoc | backend/app/infrastructure/persistence/document_repo.py:65-94 | replaying one more step record is one more replace-or-append |
| DocumentService.ReplayAppend | backend/app/infrastructure/persistence/document_repo.py:65-94 | replaying two runs of step records is replaying one after the other |
| DocumentService.SuccessfulRun | backend/app/services/document_service.py:82-169 | a run that did not fail had pages and tables, and recorded the six started/complete step records in order |
| DocumentService.ReplaySuccess | backend/app/services/document_service.py:63-67 | replaying a successful run's step records over the initial steps leaves the three steps complete, with the page and table counts |
| DocumentService.StaleStepsAfterSuccess | backend/app/services/document_service.py:79-173 | as written: after a successful run the stored document is Complete, yet its three steps are all still "pending" |
| DocumentService.StaleStepsExample | backend/app/services/document_service.py:71-173 | a concrete run (an empty PDF) that succeeds and leaves the steps as uploaded |
| DocumentService.StepsCompleteAfterSuccess | backend/app/services/document_service.py:79-173 | corrected: keeping the recorded steps, a successful run leaves the three steps complete with their details |
| DocumentService.UpdateStepNamed | backend/app/infrastructure/persistence/document_repo.py:76-84 | a step whose name is first found at a position replaces that position |
| DocumentService.DocumentService.UploadDocument | backend/app/services/document_service.py:45-69 | the file is stored at the upload path and a pending document with the three pending steps is created |
| DocumentService.DocumentService.Save | backend/app/services/document_service.py:80 | `update(doc)` of the service's copy overwrites the row and logs the status |
| DocumentService.DocumentService.Mark | backend/app/services/document_service.py:83-86 | recording one step changes only that row's step list |
| DocumentService.DocumentService.Fail | backend/app/services/document_service.py:175-179 | a failure stores Failed with the error's message |
| DocumentService.DocumentService.TextPhase | backend/app/services/document_service.py:82-97 | the file is read and the processor asked once; the step records are in-progress, then complete with the page count when the text came back |
| DocumentService.DocumentService.ReadPages | backend/app/services/document_service.py:87-88 | a stored file has its text extracted with one processor call; a missing one gives "File not found" and no call |
| DocumentService.DocumentService.StartText | backend/app/services/document_service.py:79-97 | EXTRACTING_TEXT is written and logged, then the text phase runs, and the row carries the new status and step records |
| DocumentService.DocumentService.TablesPhase | backend/app/services/document_service.py:99-128 | the processor is asked for tables once, the market tables are stored, and the step records are in-progress then complete |
| DocumentService.DocumentService.ExtractAndStoreTables | backend/app/services/document_service.py:106-120 | the processor is asked for tables once; on success one market table per extracted table is stored, on failure nothing |
| DocumentService.DocumentService.NormalizePhase | backend/app/services/document_service.py:130-169 | the LLM is asked only when some page has text; its fields are stored; the step records are in-progress then complete |
| DocumentService.DocumentService.NormalizeAndStore | backend/app/services/document_service.py:137-164 | no page text means no LLM call and no fields; otherwise one call on the raw fields, and its fields are stored only when it succeeded |
| DocumentService.DocumentService.ProcessAfterTables | backend/app/services/document_service.py:130-179 | from the third phase on: the final row, status log, stored fields and LLM calls of the run |
| DocumentService.DocumentService.ProcessAfterText | backend/app/services/document_service.py:99-179 | from the second phase on: the final row, status log, stored tables and fields and collaborator calls of the run |
| DocumentService.DocumentService.ProcessStored | backend/app/services/document_service.py:77-179 | the whole pipeline for a stored row: the run's final row, status log, writes and collaborator calls |
| DocumentService.DocumentService.ProcessDocument | backend/app/services/document_service.py:71-179 | an unknown document changes nothing and calls nothing; otherwise the row ends as the run specifies, with the statuses written in order |
| DocumentService.DocumentService.ProcessAfterTablesKeepingSteps | backend/app/services/document_service.py:130-179 | corrected pipeline, third phase on: the row keeps the recorded steps |
| DocumentService.DocumentService.ProcessAfterTextKeepingSteps | backend/app/services/document_service.py:99-179 | corrected pipeline, second phase on: the row keeps the recorded steps |
| DocumentService.DocumentService.ProcessStoredKeepingSteps | backend/app/services/document_service.py:77-179 | corrected pipeline for a stored row |
| DocumentService.DocumentService.ProcessDocumentKeepingSteps | backend/app/services/document_service.py:71-179 | corrected pipeline: as `process_document`, but the final row keeps the step list the step updates wrote |
| ValidationService.NumericFields | backend/app/services/validation_service.py:44 | exactly the fields that carry a number are kept |
| ValidationService.ToValidation | backend/app/services/validation_service.py:62-74 | an LLM result becomes a validation of the deal with its key, values, explanation, sources and confidence; a status outside the enumeration is an error |
| ValidationService.ToValidations | backend/app/services/validation_service.py:61-76 | the conversion succeeds exactly when every status is valid, with one validation per result |
| ValidationService.ToValidationsRecords | backend/app/services/validation_service.py:61-76 | each validation records the result at its position |
| ValidationService.ToValidationsFirstBad | backend/app/services/validation_service.py:61-76 | a failed conversion reports the first result whose status is invalid |
| ValidationService.AfterAnswerSpec | backend/app/services/validation_service.py:56-81 | an LLM error or a bad status is returned and nothing is stored; otherwise one validation per result is returned and each one's key is in the upserted table, whose keys stay unique |
| ValidationService.ValidationService.Benchmarks | backend/app/services/validation_service.py:50-53 | no benchmarks when the deal has no assumption set, otherwise the assumptions of a newest set of the deal, ordered by key |
| ValidationService.ValidationService.ValidateFields | backend/app/services/validation_service.py:34-81 | an unknown deal fails without a call; no numeric field gives an empty list without a call; otherwise the LLM is asked once with the deal, its numeric fields and its benchmarks, and the answer is converted and upserted |
| ValidationService.ValidationService.AskAndStore | backend/app/services/validation_service.py:56-81 | one LLM call, then the conversion and upsert of its answer |
| ValidationService.ValidationService.GetValidations | backend/app/infrastructure/persistence/field_validation_repo.py:54-59 | the validations stored for the deal |
| BenchmarkService.ToAssumptions | backend/app/services/benchmark_service.py:57-69 | one AI-sourced assumption of the target set per suggestion, carrying its key, value, unit, range and source |
| BenchmarkService.AfterSuggestionsSpec | backend/app/services/benchmark_service.py:57-73 | the suggestions are returned; the upserted keys stay unique; the last suggestion of each key is stored under that key; rows of other sets are untouched |
| BenchmarkService.AfterNoSuggestions | backend/app/services/benchmark_service.py:70-71 | no suggestion writes nothing |
| BenchmarkService.BenchmarkService.GenerateBenchmarks | backend/app/services/benchmark_service.py:32-73 | an unknown deal fails without a call; otherwise the LLM is asked once with the deal's location and type; an LLM error or a deal without sets fails and writes nothing; otherwise the suggestions go into a newest set of the deal |
| ModelEngine.MissingOf | backend/app/domain/model_engine.py:34 | no name is missing exactly when every listed field is set, and at most one name per field |
| ModelEngine.MissingSpec | backend/app/domain/model_engine.py:30-35 | nothing is missing exactly when all six required fields are set |
| ModelEngine.MissingOfNames | backend/app/domain/model_engine.py:34 | a name is reported exactly when it is the name of a listed field that is unset |
| ModelEngine.MissingRentFirst | backend/app/domain/model_engine.py:30-36 | without a rent the computation fails and `rent_psf_yr` is the first name reported |
| ModelEngine.ComputeSpec | backend/app/domain/model_engine.py:33-60 | missing fields are an error naming them; a zero cap rate is an error; otherwise the outputs obey the pro-forma formulas: gross is rent times area, effective revenue is gross net of vacancy, operating expenses are the opex ratio of effective revenue, NOI is effective revenue less opex, exit value times cap rate is NOI, total cost is price plus closing costs plus capex, profit plus cost is exit value, and the margin is profit over cost in percent, 0 when the cost is 0 |
| ModelEngine.BasicComputation | backend/tests/test_model_engine.py:8-40 | the worked example: 30 per square foot over 50000 square feet at 5 percent vacancy, 35 percent opex and a 6.5 percent cap rate gives gross 1500000, effective 1425000, opex 498750, NOI 926250, exit value 14250000, cost 15950000, profit -1700000 and a margin of -170000000/15950000 percent, between -10.66 and -10.65 |
| ModelService.LookupLastWins | backend/app/services/model_service.py:42 | a key is absent from the lookup exactly when no assumption has it; otherwise the lookup holds the value of the last assumption with that key |
| ModelService.ValueOrZero | backend/app/services/model_service.py:51-52 | a key without a number counts as 0 |
| ModelService.InputFrom | backend/app/services/model_service.py:44-53 | the model input takes its area from the deal; rent, vacancy, opex ratio, cap rate and purchase price are the assumptions' values under their keys, absent when no assumption has one; closing costs and capex are their values, 0 when absent |
| ModelService.NoSquareFeetFails | backend/app/services/model_service.py:46 | a deal without an area makes the computation fail naming `square_feet` |
| ModelService.ModelService.Compute | backend/app/services/model_service.py:31-65 | an unknown set or deal fails and writes nothing; otherwise the engine runs on the set's assumptions in key order and the deal's area, an engine error writes nothing, and a result is recorded with the engine's figures |
| ModelService.ModelService.GetResult | backend/app/infrastructure/persistence/model_result_repo.py:29-38 | None exactly when the set has no result; otherwise a latest result of that set |
| ExportService.ExportPathInjective | backend/app/services/export_service.py:64 | two exports of different deals or sets never share a path, for ids without a slash |
| ExportService.ExportService.ExportXlsx | backend/app/services/export_service.py:38-73 | an unknown set or deal fails with its message; a set without a model result fails; each failure writes nothing, and only a set with its deal and a result reaches the exporter; then the exporter is called once with the deal, the set's assumptions in key order and its latest result; an exporter failure is returned and nothing is stored or recorded; otherwise the workbook is stored at `exports/<deal id>/<set id>.xlsx` and an xlsx export record of the deal and set is appended and returned |
| ExportService.ExportService.Gather | backend/app/services/export_service.py:39-58 | the reads fail with the unknown set's or deal's message, and succeed exactly when the set, its deal and a result exist, returning the deal, the set's assumptions in key order and its latest result; nothing changes |
| ExportService.ExportService.BuildAndStore | backend/app/services/export_service.py:60-73 | one exporter call; its failure is returned with nothing stored or recorded; otherwise the workbook is stored at the export path and the export record appended and returned |
| Mappers.DealToEntity | backend/app/infrastructure/persistence/mappers.py:41-54 | a row converts exactly when its property type is a known value, keeping that value |
| Mappers.DealToModel | backend/app/infrastructure/persistence/mappers.py:57-70 | the row stores the property type's value |
| Mappers.DealRoundTrip | backend/app/infrastructure/persistence/mappers.py:41-70 | entity to row to entity is the identity |
| Mappers.DealRowRoundTrip | backend/app/infrastructure/persistence/mappers.py:41-70 | a convertible row survives row to entity to row unchanged |
| Mappers.DictsToSteps | backend/app/infrastructure/persistence/mappers.py:84-90 | a missing or empty list gives no steps; the conversion succeeds exactly when every dictionary has a name and a status, one step per dictionary |
| Mappers.StepsRoundTrip | backend/app/infrastructure/persistence/mappers.py:78-90 | steps to dictionaries to steps is the identity |
| Mappers.DictsRoundTrip | backend/app/infrastructure/persistence/mappers.py:78-90 | dictionaries with exactly the three keys survive dictionaries to steps to dictionaries |
| Mappers.DocumentToEntity | backend/app/infrastructure/persistence/mappers.py:93-106 | a row converts exactly when its type, its status and its steps convert; a missing step list reads as no steps |
| Mappers.DocumentToModel | backend/app/infrastructure/persistence/mappers.py:109-122 | the row stores the enumeration values and the steps as dictionaries |
| Mappers.DocumentRoundTrip | backend/app/infrastructure/persistence/mappers.py:93-122 | entity to row to entity is the identity |
| Mappers.DocumentRowRoundTrip | backend/app/infrastructure/persistence/mappers.py:93-122 | row to entity to row changes at most the step list: a missing list comes back empty, and well-formed dictionaries come back unchanged |
| Mappers.ExtractedFieldToEntity | backend/app/infrastructure/persistence/mappers.py:130-140 | the field keeps its id, document and key |
| Mappers.ExtractedFieldToModel | backend/app/infrastructure/persistence/mappers.py:143-153 | the row keeps the field's id, document and key |
| Mappers.ExtractedFieldRoundTrip | backend/app/infrastructure/persistence/mappers.py:130-153 | the two conversions are inverse in both directions |
| Mappers.MarketTableToEntity | backend/app/infrastructure/persistence/mappers.py:161-170 | missing headers or rows read as empty |
| Mappers.MarketTableToModel | backend/app/infrastructure/persistence/mappers.py:173-182 | the row always stores headers and rows |
| Mappers.MarketTableRoundTrip | backend/app/infrastructure/persistence/mappers.py:161-182 | entity to row to entity is the identity; a row with headers and rows survives the other way |
| Mappers.AssumptionSetToEntity | backend/app/infrastructure/persistence/mappers.py:190-197 | the set keeps its id, deal and name |
| Mappers.AssumptionSetToModel | backend/app/infrastructure/persistence/mappers.py:200-207 | the row keeps the set's id, deal and name |
| Mappers.AssumptionSetRoundTrip | backend/app/infrastructure/persistence/mappers.py:190-207 | the two conversions are inverse in both directions |
| Mappers.AssumptionToEntity | backend/app/infrastructure/persistence/mappers.py:215-228 | a row converts exactly when its source type is a known value |
| Mappers.AssumptionToModel | backend/app/infrastructure/persistence/mappers.py:231-244 | the row stores the source type's value |
| Mappers.AssumptionRoundTrip | backend/app/infrastructure/persistence/mappers.py:215-244 | entity to row to entity is the identity |
| Mappers.AssumptionRowRoundTrip | backend/app/infrastructure/persistence/mappers.py:215-244 | a convertible row survives row to entity to row unchanged |
| Mappers.ExportToEntity | backend/app/infrastructure/persistence/mappers.py:252-260 | a row converts exactly when its type is `xlsx` |
| Mappers.ExportToModel | backend/app/infrastructure/persistence/mappers.py:263-271 | the row's type is `xlsx` |
| Mappers.ExportRoundTrip | backend/app/infrastructure/persistence/mappers.py:252-271 | the two conversions are inverse in both directions on convertible rows |
| Mappers.FieldValidationToEntity | backend/app/infrastructure/persistence/mappers.py:279-292 | a row converts exactly when its status is known; missing sources or search steps read as empty |
| Mappers.FieldValidationToModel | backend/app/infrastructure/persistence/mappers.py:295-308 | the row stores the status value and always stores sources and search steps |
| Mappers.FieldValidationRoundTrip | backend/app/infrastructure/persistence/mappers.py:279-308 | entity to row to entity is the identity |
| Mappers.CompToEntity | backend/app/infrastructure/persistence/mappers.py:316-340 | a row converts exactly when its property type and its source are known values |
| Mappers.CompToModel | backend/app/infrastructure/persistence/mappers.py:343-367 | the row stores both enumeration values |
| Mappers.CompRoundTrip | backend/app/infrastructure/persistence/mappers.py:316-367 | entity to row to entity is the identity |
| Mappers.CompRowRoundTrip | backend/app/infrastructure/persistence/mappers.py:316-367 | a convertible row survives row to entity to row unchanged |
| RentcastProvider.RentcastType | backend/app/infrastructure/comps/rentcast_provider.py:30-35 | the Rentcast name of a canonical type, Multi-Family for a type without one |
| RentcastProvider.CanonicalType | backend/app/infrastructure/comps/rentcast_provider.py:23-28 | only the four Rentcast names map to a canonical type |
| RentcastProvider.TypeMapsAgree | backend/app/infrastructure/comps/rentcast_provider.py:23-35 | the two type maps are inverse on the four mapped types, and other types query as Multi-Family |
| RentcastProvider.AddressOf | backend/app/infrastructure/comps/rentcast_provider.py:90-93 | the first address line when it is set; else the trimmed text before the first comma of the formatted address, a slice of it without a comma; empty when the key is absent; splitting a `null` formatted address raises |
| RentcastProvider.PricePerUnit | backend/app/infrastructure/comps/rentcast_provider.py:99-101 | a price per unit exactly when the sale price is non-zero and the unit count positive, and then price per unit times units is the sale price |
| RentcastProvider.PricePerSqft | backend/app/infrastructure/comps/rentcast_provider.py:103-106 | a price per square foot exactly when the sale price is non-zero and the area positive, and then it times the area is the sale price |
| RentcastProvider.ToComp | backend/app/infrastructure/comps/rentcast_provider.py:89-131 | a property raises exactly when its address does; it is skipped exactly when its address is empty; otherwise a Rentcast comp of the deal with that address, the fetch time and the url `https://rentcast.io/property/` followed by the id, `None` for a `null` id |
| RentcastProvider.ToCompFields | backend/app/infrastructure/comps/rentcast_provider.py:108-130 | the comp's type falls back to the deal's, its city and state to the deal's, and its derived prices are those above; no NOI or expense figures |
| RentcastProvider.CompsOfMembers | backend/app/infrastructure/comps/rentcast_provider.py:87-131 | the loop raises exactly when some property's address raises; otherwise the comps are exactly the conversions of the properties that have an address, at most one per property |
| RentcastProvider.CompsOfSpec | backend/app/infrastructure/comps/rentcast_provider.py:87-131 | when the loop completes, every comp belongs to the deal, comes from Rentcast with an address, the fetch time and a Rentcast url; no comp exactly when no property has an address |
| RentcastProvider.MapProperties | backend/app/infrastructure/comps/rentcast_provider.py:87-131 | the loop yields the specified comps in property order, or stops with the first property's exception |
| RentcastProvider.ListedFailures | backend/app/infrastructure/comps/rentcast_provider.py:67-85 | a failed request, a status other than 200 or a reply without properties lists nothing; a `null` properties list raises on iteration |
| RentcastProvider.RentcastCompsProvider.QueryFor | backend/app/infrastructure/comps/rentcast_provider.py:57-65 | the query carries the deal's coordinates, its Rentcast type, the radius, the limit and the key |
| RentcastProvider.RentcastCompsProvider.SearchComps | backend/app/infrastructure/comps/rentcast_provider.py:44-134 | a deal without coordinates or a missing key returns nothing without a request; otherwise one request and the comps of its reply, or the exception the property loop raises |
| TavilyProvider.SearchQueries | backend/app/infrastructure/comps/tavily_provider.py:39-45 | two distinct queries, each starting with the deal's property type |
| TavilyProvider.CollectedSpec | backend/app/infrastructure/comps/tavily_provider.py:47-57 | a failed search contributes nothing and the other's results are kept; the results of both are concatenated; nothing is collected exactly when both are empty |
| TavilyProvider.Entry | backend/app/infrastructure/comps/tavily_provider.py:62-63 | a result's entry is its url and title header, `None` for a `null`, followed by at most 500 characters of its content, or of its snippet when it has no content key, exactly 500 when the text is longer; a `null` text raises on slicing |
| TavilyProvider.SearchTextSpec | backend/app/infrastructure/comps/tavily_provider.py:62-65 | the search text is built exactly when no result's text is `null`, and is then the join by blank lines of one entry per result, in order |
| TavilyProvider.RemoveFences | backend/app/infrastructure/comps/tavily_provider.py:153 | removing the fences never lengthens the text |
| TavilyProvider.TrimBackticks | backend/app/infrastructure/comps/tavily_provider.py:153 | `rstrip("`")`: the result is a prefix not ending in a backtick, and everything cut is a backtick |
| TavilyProvider.RemoveFencesPlain | backend/app/infrastructure/comps/tavily_provider.py:153 | text without backticks passes through the fence removal unchanged |
| TavilyProvider.RemoveLeadingFence | backend/app/infrastructure/comps/tavily_provider.py:153 | an opening json fence and the white space after it are removed |
| TavilyProvider.RemoveFencesOfFence | backend/app/infrastructure/comps/tavily_provider.py:153 | a closing fence is removed |
| TavilyProvider.StripNewline | backend/app/infrastructure/comps/tavily_provider.py:153 | stripping removes a trailing newline from trimmed text |
| TavilyProvider.TrimBackticksNone | backend/app/infrastructure/comps/tavily_provider.py:153 | text not ending in a backtick is not cut |
| TavilyProvider.CleanFencedBlock | backend/app/infrastructure/comps/tavily_provider.py:151-153 | a body in a json code fence comes out as the body alone |
| TavilyProvider.CleanPlainText | backend/app/infrastructure/comps/tavily_provider.py:151-153 | text without backticks is only stripped |
| TavilyProvider.ItemType | backend/app/infrastructure/comps/tavily_provider.py:119-123 | a known property type is kept, a missing or unknown one falls back to the deal's |
| TavilyProvider.ItemToComp | backend/app/infrastructure/comps/tavily_provider.py:114-146 | an item raises exactly when its address is `null`; it is skipped exactly when its address is blank or absent; otherwise a Tavily comp of the deal with the stripped address and the fetch time |
| TavilyProvider.ItemToCompFields | backend/app/infrastructure/comps/tavily_provider.py:125-145 | the comp's type is the item's type, its city and state default to the deal's, and its figures are the item's; no NOI or opex per unit |
| TavilyProvider.ItemCompsMembers | backend/app/infrastructure/comps/tavily_provider.py:112-146 | when the loop completes, the comps are exactly the conversions of the items with an address, at most one per item |
| TavilyProvider.ItemCompsSpec | backend/app/infrastructure/comps/tavily_provider.py:112-146 | when the loop completes, every comp belongs to the deal, comes from Tavily with the fetch time, and has a non-empty address without surrounding white space |
| TavilyProvider.MapItems | backend/app/infrastructure/comps/tavily_provider.py:112-146 | the loop yields the specified comps in item order, or stops with the first item's exception |
| TavilyProvider.ItemCompsRaises | backend/app/infrastructure/comps/tavily_provider.py:112-146 | the item loop raises exactly when some item's address is `null`, with the strip error |
| TavilyProvider.ExtractedFailures | backend/app/infrastructure/comps/tavily_provider.py:95-114 | a failed LLM call or a reply that does not decode gives no comps; a `null` comps list raises on iteration |
| TavilyProvider.TavilyCompsProvider.AskForComps | backend/app/infrastructure/comps/tavily_provider.py:95-146 | one LLM call on the search text, then the comps its reply yields |
| TavilyProvider.TavilyCompsProvider.CollectResults | backend/app/infrastructure/comps/tavily_provider.py:47-57 | both queries are searched in order and their results collected |
| TavilyProvider.TavilyCompsProvider.SearchComps | backend/app/infrastructure/comps/tavily_provider.py:34-149 | both queries are searched; with no result nothing is asked and nothing returned; a search text that raises is returned before any LLM call; otherwise the LLM is asked once with the search text and its reply's items become the comps |
| Oracles.Oracle.Call | backend/app/domain/interfaces/providers.py:26-41 | a collaborator's call is logged and answered by its fixed answer function |
| Oracles.FileStorage.Store | backend/app/infrastructure/file_storage/local.py:18-23 | the data is stored under the path, which is returned |
| Oracles.FileStorage.Retrieve | backend/app/infrastructure/file_storage/local.py:25-29 | a stored path is returned; a missing one is a "File not found" error |
| Oracles.DocumentProcessor.ExtractText | backend/app/domain/interfaces/providers.py:18-20 | the text extraction call is logged and answered |
| Oracles.DocumentProcessor.ExtractTables | backend/app/domain/interfaces/providers.py:22-23 | the table extraction call is logged and answered |
| Text.Strip | backend/app/infrastructure/comps/tavily_provider.py:115 | `str.strip()`: the result is the slice left after cutting white space from both ends, has no white space at either end, and is empty exactly when the string is blank |
| Text.BeforeFirst | backend/app/infrastructure/comps/rentcast_provider.py:92 | `split(",")[0]`: the longest prefix without the separator |
| Text.Take | backend/app/services/document_service.py:144 | a slice `[:n]`: a prefix of at most n characters, exactly n when the string is longer, the whole string otherwise |
| Domain.ParsePropertyTypeValue | backend/app/domain/value_objects/enums.py:5-11 | each property type parses back from its value |
| Domain.ParseProcessingStatusValue | backend/app/domain/value_objects/enums.py:15-22 | each processing status parses back from its value |
| Domain.ParseSourceTypeValue | backend/app/domain/value_objects/enums.py:25-29 | each source type parses back from its value |
| Domain.ParseDocumentTypeValue | backend/app/domain/value_objects/enums.py:32-36 | each document type parses back from its value |
| Domain.ParseValidationStatusValue | backend/app/domain/value_objects/enums.py:43-48 | each validation status parses back from its value |
| InMemoryRepos.PutSpec | backend/tests/conftest.py:38-40 | `store[id] = x` on a dictionary: ids stay unique, the id now reads x, every other id reads as before, and the size grows exactly when the id is new |
| InMemoryRepos.FirstWith | backend/tests/conftest.py:150-154 | the first position holding the key, or None exactly when no entry holds it |
| InMemoryRepos.DealStore.Create | backend/tests/conftest.py:38-40 | the deal is put under its id and returned |
| InMemoryRepos.DealStore.GetById | backend/tests/conftest.py:42-43 | the stored deal with the id, or None exactly when no deal has it |
| InMemoryRepos.DealStore.List | backend/tests/conftest.py:45-52 | no filters lists every deal; otherwise the deals matching the property type and city filters, in store order |
| InMemoryRepos.DealStore.Update | backend/tests/conftest.py:54-56 | the deal is put under its id and returned |
| InMemoryRepos.DocumentStore.Create | backend/tests/conftest.py:63-65 | the document is put under its id and returned |
| InMemoryRepos.DocumentStore.GetById | backend/tests/conftest.py:67-68 | the stored document with the id, or None exactly when none has it |
| InMemoryRepos.DocumentStore.GetByDealId | backend/tests/conftest.py:70-71 | exactly the deal's documents, in store order |
| InMemoryRepos.DocumentStore.Update | backend/tests/conftest.py:73-75 | the document is put under its id and returned |
| InMemoryRepos.DocumentStore.UpdateProcessingStep | backend/tests/conftest.py:77-93 | an unknown id is an error and changes nothing; otherwise the step replaces the first step of its name or is appended, and the document is stored and returned |
| InMemoryRepos.ExtractedFieldStore.BulkCreate | backend/tests/conftest.py:101-103 | the fields are appended in order and returned |
| InMemoryRepos.ExtractedFieldStore.GetByDocumentId | backend/tests/conftest.py:105-106 | exactly the document's fields, in store order |
| InMemoryRepos.ExtractedFieldStore.GetByDealId | backend/tests/conftest.py:108-113 | the fields of the deal's documents, or none when the store was built without a document store |
| InMemoryRepos.MarketTableStore.BulkCreate | backend/tests/conftest.py:120-122 | the tables are appended in order and returned |
| InMemoryRepos.MarketTableStore.GetByDocumentId | backend/tests/conftest.py:124-125 | exactly the document's tables, in store order |
| InMemoryRepos.AssumptionSetStore.Create | backend/tests/conftest.py:132-134 | the set is put under its id and returned |
| InMemoryRepos.AssumptionSetStore.GetById | backend/tests/conftest.py:136-137 | the stored set with the id, or None exactly when none has it |
| InMemoryRepos.AssumptionSetStore.GetByDealId | backend/tests/conftest.py:139-140 | exactly the deal's sets, in store order |
| InMemoryRepos.UpsertEntrySpec | backend/tests/conftest.py:148-170 | one upsert keeps ids unique; a stored entry with the same set and key is overwritten in place with the new values under its own id; otherwise a new id is appended |
| InMemoryRepos.UpsertEntryKeeps | backend/tests/conftest.py:148-170 | after one upsert some entry has the input's set, key and values, and entries with another key and another id survive |
| InMemoryRepos.UpsertEntriesUnique | backend/tests/conftest.py:147-172 | a bulk upsert keeps the ids unique |
| InMemoryRepos.AssumptionStore.BulkUpsert | backend/tests/conftest.py:147-172 | the store becomes the upsert of the inputs one after the other, and the inputs are returned unchanged |
| InMemoryRepos.AssumptionStore.FirstStored | backend/tests/conftest.py:150-154 | the first stored assumption with the input's set and key, or none when there is none |
| InMemoryRepos.ReturnedIdIsNotStoredId | backend/tests/conftest.py:157-172 | when an entry with the same set and key exists under another id, the stored entry keeps the old id while the returned input carries the new one, so the returned object is not what is stored |
| InMemoryRepos.AssumptionStore.GetBySetId | backend/tests/conftest.py:174-175 | exactly the set's assumptions, in store order |
| InMemoryRepos.AssumptionStore.Update | backend/tests/conftest.py:177-179 | the assumption is put under its id and returned |
| InMemoryRepos.ExportStore.Create | backend/tests/conftest.py:186-188 | the export is appended and returned |
| InMemoryRepos.ExportStore.GetByDealId | backend/tests/conftest.py:190-191 | exactly the deal's exports, in store order |
| PdfProcessor.ExtractText | backend/app/infrastructure/document_processing/pdfplumber_processor.py:23-29 | one entry per page, numbered from 1, carrying that page's text |
| PdfProcessor.PageTablesSpec | backend/app/infrastructure/document_processing/pdfplumber_processor.py:36-53 | a page yields at most one table per raw table, each with that page's number, confidence 0.8 and at least one data row |
| PdfProcessor.TablesOfSpec | backend/app/infrastructure/document_processing/pdfplumber_processor.py:32-54 | every table carries a page number of the document, confidence 0.8 and at least one data row, and the tables come in page order |
| PdfProcessor.ExtractTables | backend/app/infrastructure/document_processing/pdfplumber_processor.py:32-54 | the nested loops yield the specified tables, page by page and table by table |
| PdfProcessor.ExtractPageTables | backend/app/infrastructure/document_processing/pdfplumber_processor.py:36-53 | one page's tables: the raw tables with at least two rows, shaped in their order, the others skipped |

## Left out

- Concurrency: the two provider searches that `asyncio.gather` runs side by side are two given outcomes, each a list or a failure; the order of awaits and thread offloading (`asyncio.to_thread`) is not modelled.
- External systems: the OpenAI, Tavily and Rentcast clients, the workbook exporter (`excel_exporter.py`) and the PDF library are oracles with a fixed answer per question. Prompt wording, HTTP headers, timeouts and the workbook's contents are not modelled.
- `json.loads` is an abstract decoding function that succeeds or fails; the regular expression that strips code fences is modelled as an explicit character-level function.
- Floating point: prices, rates and the valuation formula are exact `real` arithmetic, not IEEE doubles; rounding is not modelled.
- Identifiers and clocks: UUIDs are opaque strings and `datetime.utcnow()` is a `Time` parameter; fresh ids are parameters (a function of the position where a loop creates several). Like the SQL code, the bulk upserts and bulk creates neither require their new ids to be absent from the table nor keep ids unique.
- ORM plumbing: sessions, `flush`, `refresh`, the row classes of `models.py`, the UUID column type and the migrations are replaced by tables holding entities. The tables' insertion order stands for the database's unspecified order where a query has no `ORDER BY`.
- Transactions: an exception inside a request rolls the session back; the model returns the error and keeps the table as it was, and does not model partially committed work.
- API routes, dependency wiring, configuration and the application factory are thin wrappers and are not modelled, nor is `quick_extract.py`.
- Logging calls are not modelled.
- `FileStorage.delete` is not used by the modelled services and is not modelled.
- Oracles.FileStorage.Retrieve: the storage base directory is not modelled, so the returned path and the "File not found" message carry the relative path where the source uses the full one.
- DocumentService.DocumentService.ProcessDocument: only failures of the collaborators (file retrieval, text and table extraction, the LLM) are modelled as exceptions; an exception raised inside the service's own code is not.
- The one-line document reads of `document_service.py:181-193` (`get_documents`, `get_document`, `get_extracted_fields`, `get_market_tables`) are modelled by the repository reads they delegate to.
- DealService.DealService.UpdateDeal: the keyword arguments are the eight optional attributes of the update request the route passes; an arbitrary attribute name (for instance `id`) passed to `update_deal` directly is not modelled.
- TavilyProvider.ItemToComp: a JSON `null` city or state is read as an absent key and falls back to the deal's, where the source keeps `None`; a `null` address, content, snippet or comps list is modelled as the exception it raises.
- RentcastProvider.ToComp: a JSON `null` city or state is read as an absent key and falls back to the deal's, where the source keeps `None`; a `null` id, formatted address or properties list is modelled as the source handles it.
- JSON shapes: a decoded Rentcast or Tavily body, a Tavily result or a comps item that is not a JSON object (a list, a number) is not modelled; such a value raises an AttributeError in the source.
- Text.Lower: `str.lower()` is modelled for ASCII and the Latin-1 capitals only; other Unicode case mappings, including those that change a string's length such as 'İ', are not, so CombinedProvider.AddressKey and CombinedProvider.SearchComps de-duplicate addresses with that folding.
- Mappers: a `search_steps` entry is an opaque JSON text; its inner structure is not modelled.
- InMemoryRepos: Python objects are shared between the in-memory stores and their callers, so a caller's later mutation of a returned object changes the stored one. The model stores values, and this aliasing is not modelled.
- The extracted-field list given to the comps providers is passed along but not read by either provider, so the providers' models do not take it.
- The workbook exporter is called with three arguments (`export_service.py:61`) while `excel_exporter.py:19-20` takes two; the model's exporter is an oracle that may fail, and the TypeError the call raises is one of its failing answers, after which nothing is stored or recorded.
- `validation_service.py:56` calls `validate_om_fields`, which neither the LLM interface (`providers.py:26-40`) nor the OpenAI provider declares; the model's LLM oracle may fail, and the AttributeError the call raises is one of its failing answers.

## Findings

| source | as written | input that shows it | evidently intended | confidence | as-written member | corrected member |
|---|---|---|---|---|---|---|
| backend/app/services/document_service.py:79-173 | `process_document` records each step with `update_processing_step`, but then saves its own copy of the document, read before any step was recorded, with `update(doc)`; that overwrites the stored step list, so after a successful run the steps are still the three "pending" ones | a freshly uploaded document whose processing succeeds, for instance an empty PDF (no pages, no tables) | the final row is COMPLETE and its three steps are "complete" with the page and table counts | not executed | DocumentService.StaleStepsAfterSuccess | DocumentService.StepsCompleteAfterSuccess |

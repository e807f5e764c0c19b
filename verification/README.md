# Verified models of the data platform

The platform registers source assets, discovers their schemas, keeps a catalogue of objects and
elements in step with them, extracts rows incrementally and records each run. These files model the
parts that carry state from one call to the next and prove what holds over every run of them.

| file | what it models |
|---|---|
| `IncrementalRuns`, `ExactlyOnce`, `IncrementalHistories`, `PipelineRuns`, `Watermark` | resolving a watermark, extracting above it, reporting the maximum, recording the run |
| `RestExtraction` | the paginated extraction loop and the mock store it reads from |
| `Lineage` | the column lineage graph and its two traces |
| `Schema`, `SchemaDiffer`, `SchemaDrift` | fields, type widening, diffs and what they mean |
| `PlatformStore`, `ObjectService`, `Discovery`, `DiscoveryUseCases` | the catalogue, schema application, provisioning, self-healing, and the discovery and approval use cases |
| `DiscoveryHistory`, `CatalogueInStep`, `HealingOutcomes`, `DiscoveryResults`, `TableHistories` | what holds over any history of discoveries and decisions, and concrete ones |
| `UnitOfWork` | nested transactions |
| `CircuitBreaker`, `PermissionCache` | the breaker and the permission cache under interleaved calls |
| `PipelineYaml` | the sections a pipeline is published as and the normaliser that reads them back |
| `CatalogHistory` | versioned schemas, policy tags and lineage rows |
| `MongoSample` | schema inference from sampled documents |

Code that changes state is modelled as classes and loops, each proved equal to a function of the
state before; the theorems are about those functions and about sequences of them. uuid4 is a supply
of ids that never repeats, clocks are inputs that do not run backwards, repositories are sequences of
rows, and the outcome of a scan, a page request or a database read is a parameter.

## How to read the main results

- **Exactly once.** `ExactlyOnceIff` holds of every history with one run at a time and no override,
  whatever the rows. Its condition looks at one event at a time: `Overlooks` (a batch is counted
  without a watermark), `Strays` (the watermark to be stored was moved down by stripping, or is not
  below a row that came after the job) and `ArrivesLate` (a row arrives at or below the stored
  watermark). `OrderlyRun` and `AllClean` say what excludes the last two: a row that appears later
  is not NULL and lies above every row a run has covered or is about to record, and stripping moves
  no value in the column's order. That order is a parameter, a strict weak order on texts.
- **Catalogue in step.** `StoreOk` is the invariant of the store: unique ids, object names unique
  within an asset, element names unique within an object. The latest snapshot of an object
  (`LastSeen`) is the one in the last completed or partial run that found it, however many runs of
  its asset have missed it since. `StaleAfter` keeps the set of objects whose elements do not match
  that snapshot; each event changes it by a condition on the elements before the event.
- **Caches and breakers.** A call is separate begin and end steps, so calls interleave freely and a
  call can be cancelled while it waits.
- **Generator and normaliser.** A field that the normaliser copies without conversion holds any
  value, so "empty" means falsy. `int()` of a text, `str()` of other values and `tuple()` of
  non-lists are parameters; no theorem depends on them.

## Where the code does less than it says

- The breaker's docstring speaks of one probe; every call is admitted while HALF_OPEN
  (`HalfOpenAdmitsAll`), and cancelled probes leave the breaker there (`HalfOpenLeftIff`,
  `TwoProbesThenNone`). OPEN is said to fail fast until the timeout; a call that was under way when
  the breaker opened closes it at once if it succeeds (`AdmittedInWindowIff`,
  `SuccessUnderWayLetsCallsIn`).
- If self-healing raises, the run has completed in memory already, so the FAILED record is not
  written (`RaisingDiscoveryLeavesARecordIff`, `HealingRaises`). It raises iff a snapshot it applies
  asks an element for a lossy change (`HealingRaisesIff`), and as no record and no new baseline is
  left, every later scan that finds the tables in the same shape raises again (`RetriesRaise`).
- A critical change waits for an approval only if it comes alone: with a first run, a table the
  last run missed, or one informative event in the same diff, it is applied at once and the approval
  is filed all the same (`AppliedAtOnceIff`, `ChangeSlipsThrough`).
- OBJECT_REMOVED exists as an event, but no discovery emits it (`RemovedObjectsGoUnreported`).
- An approval of a change the element service calls destructive can never go through
  (`DestructiveApprovalNeverSucceeds`, `HopelessIsReached`); one of an outdated change can take the
  catalogue out of step with its latest snapshot, and `ApprovalInStepIff` says when
  (`OutdatedApprovalTakesBack`).
- The metrics file is read softly (ingestion_dag.py.j2:294-302, storage_reader.py): a run whose load
  succeeded is recorded as a success without metrics when it is missing or broken. Its rows count as
  extracted, the watermark stays, and they come again (`LostMetricsReadTwice`). A first batch of NULLs
  alone comes again in every run (`NullsComeForEver`).
- The baseline of a discovery is the last completed or partial run, as the SQL filter says; the
  repository Protocol's docstring says terminal, which would include failed runs.
- Rows that arrive at or below the stored watermark, ties included, are never extracted
  (`LateRowIsNeverExtracted`, `LateAndTiedRowsAreMissed`). Stripping a text watermark can make the
  last rows come again (`RepeatedRunIsEmptyIff`, `BlankReadTwice`).
- A pipeline without watermark type and initial value stores a string watermark but declares
  TIMESTAMP, so its second run never starts (`UntypedPipelineStops`, `NextRunStartsIff`).
  pipeline.py:63-66 refuses such an incremental source, so this takes a pipeline written by hand as
  YAML. Changing the type of a pipeline that has recorded runs has the same effect
  (`TypeMismatchBlocksForEver`).
- offset_limit against the mock store, which reads `page`, `limit` and `status`, never ends unless
  the first page is short (`OffsetLimitEndsIff`, `EndlessOffsetRun`). The store's total ignores the
  status, so has_next can promise orders that do not come (`HasNextIsRightIff`); the client does not
  read it (`MockStoreExtraction`).
- Role names with a comma can share a cache entry with other lists, and then answers are wrong
  (`StalenessIsBoundedIff`, `CollidingListsAnswerWrong`, `CommasCollide`), and an invalidation does not reach a query under way
  (`InvalidationHoldsIff`, `RevokedPermissionIsServed`).
- publish_schema calls itself idempotent; it is until a column is tagged. After that, publishing
  the same snapshot adds a version without the tags (`RepublishAddsNothingIff`,
  `RepublishDropsTags`). Tagging adds a version even when nothing changes (`TaggingAddsAVersionIff`).
- The generator never writes schema fields and the normaliser never reads a sensor, so neither
  survives being published and read back (`PipelineComesBackIff`).
- A MongoDB field that is null in one sampled document is inferred as a string (`JsonIff`).

## Model

| member | source | states |
|---|---|---|
| ExactlyOnce.ExactlyOnceIff | app/infrastructure/airflow_callbacks/ingestion_callbacks.py:139-177 | after any history without overrides, the batches of the recorded successful and partial runs hold each row above the initial value and up to the stored watermark exactly once, in table order, and no other row, iff at no point a batch was counted without a watermark, a stored watermark had been moved down by stripping or left a later row behind, or a row arrived at or below the stored watermark |
| ExactlyOnce.OrderlyMissesIff | app/application/pipelines/record_pipeline_run_use_case.py:40-92 | where rows arrive above what was read and stripping moves none, an event breaks exactly-once iff it counts a non-empty batch whose metrics are missing or whose rows are all NULL |
| ExactlyOnce.OrderlyExactlyOnceIff | app/infrastructure/airflow_callbacks/ingestion_callbacks.py:139-177 | over orderly histories exactly-once holds iff every record that counted a non-empty batch came with its metrics and the batch was not all NULL |
| ExactlyOnce.StraysIff | app/infrastructure/adapters/compute/rest_api_helpers.py:131-153 | a record leaves a read row due, or passes over a due row, iff stripping moved the maximum down or a row that came after the job does not lie above it |
| IncrementalHistories.LostMetricsReadTwice | app/infrastructure/dag_generator/templates/ingestion_dag.py.j2:294-302 | a success recorded without its metrics: the next run reads the row again |
| IncrementalHistories.NullsComeForEver | app/infrastructure/adapters/compute/rest_api_helpers.py:131-153 | a table that holds only a NULL is read again by every run, for any number of runs |
| IncrementalRuns.RunKeepsInv | app/application/pipelines/record_pipeline_run_use_case.py:40-92 | every event, lost metrics included, keeps: the next starting point cuts the table between the rows covered and the rows still due, and the job under way has read exactly the due ones it has seen |
| IncrementalRuns.BatchIsTheRestOfDue | app/infrastructure/adapters/compute/watermark_binding.py:24-34 | a job started behind a cut reads exactly the due rows that no earlier job read |
| IncrementalRuns.BehindTheCut | app/infrastructure/adapters/compute/watermark_binding.py:24-34 | for a row behind the cut, being above the stored watermark and being above the initial value are the same |
| IncrementalRuns.MetricsCut | app/infrastructure/adapters/compute/rest_api_helpers.py:131-153 | a reported watermark cuts the whole table, an empty batch leaves the old cut, and a non-empty batch is reported iff it has a value that is not NULL |
| IncrementalRuns.StoredOnlyRises | app/application/pipelines/record_pipeline_run_use_case.py:49-92 | over any orderly history the stored watermark is never removed and never moves down in the column's order |
| IncrementalRuns.FailedRunsLeaveNoTrace | app/application/pipelines/record_pipeline_run_use_case.py:42-65 | an event that is not a record with status success or partial leaves the stored watermark and the batches as they were, whatever maximum a failed run reports |
| IncrementalRuns.CountedRunsAreStored | app/application/pipelines/record_pipeline_run_use_case.py:49-92 | a record with status success or partial adds the batch and stores the reported maximum if its metrics are read and it parses; without one the watermark stays, and one that does not parse leaves no record |
| IncrementalRuns.OverrideRunExtractsIff | app/infrastructure/airflow_callbacks/ingestion_callbacks.py:159-161 | a run with an override reads exactly the rows above it, whatever is stored |
| IncrementalRuns.LateRowIsNeverExtracted | app/infrastructure/adapters/compute/watermark_binding.py:24-34 | a row that appears at or below the stored watermark is in no batch of any run that follows |
| IncrementalHistories.LateAndTiedRowsAreMissed | app/infrastructure/adapters/compute/watermark_binding.py:24-34 | a history with one late and one with a tied row that is never read |
| IncrementalRuns.NextRunExtractsIff | app/infrastructure/adapters/compute/duckdb_compute_adapter.py:230-267 | a successful run adds one batch, and a row is in it iff it is above the value the run resolved |
| IncrementalRuns.StoredTypeIff | app/infrastructure/airflow_callbacks/ingestion_callbacks.py:139-177 | over any history without overrides, a stored watermark has the declared type iff there is an initial value, or the source object has the declared type, or it has none and the declared type is STRING |
| IncrementalRuns.NextRunStartsIff | app/infrastructure/airflow_callbacks/ingestion_callbacks.py:163-177 | after any such history the next run starts iff, once a watermark is stored, those types agree, and before that, the initial value parses if there is one |
| IncrementalRuns.OneFieldBlocksIff | app/infrastructure/dag_generator/templates/ingestion_dag.py.j2:192-204 | where both types come from one field of the pipeline, they disagree iff it has neither the field nor an initial value |
| IncrementalRuns.TypeMismatchBlocksForEver | app/infrastructure/airflow_callbacks/ingestion_callbacks.py:166-170 | from any state, however reached, in which the stored type differs from the declared one, no run without an override ever starts again |
| IncrementalRuns.UntypedFirstRunStoresString | app/infrastructure/adapters/compute/rest_api_helpers.py:139-153 | a first run without initial value and without type stores its maximum as a string |
| IncrementalHistories.UntypedPipelineStops | app/infrastructure/dag_generator/templates/ingestion_dag.py.j2:192-204 | such a pipeline, declared TIMESTAMP by default, does not start a second run |
| Watermark.ParseTwice | app/domain/pipelines/watermark.py:30-72 | parsing is idempotent: what parsed parses again to itself |
| Watermark.ParseIff | app/domain/pipelines/watermark.py:30-72 | a raw value is refused iff it is absent, blank or not accepted by the type, and kept but for blanks at its ends |
| Watermark.StripIs | app/domain/pipelines/watermark.py:36-39 | stripping cuts blanks off both ends and nothing else |
| Watermark.EscapedReadsBack | app/domain/pipelines/watermark.py:74-80 | a quoted text with its quotes doubled reads back as the text, with nothing left over |
| Watermark.LiteralDenotesValue | app/domain/pipelines/watermark.py:74-80 | the SQL literal of a timestamp, date or string watermark denotes exactly its value; a number is written as it is |
| Watermark.BatchIs | app/infrastructure/adapters/compute/watermark_binding.py:24-34 | a batch is exactly the rows the predicate selects |
| Watermark.MaxCellIs | app/infrastructure/adapters/compute/rest_api_helpers.py:131-153 | the reported maximum is a cell that was read and no cell read is greater; it is absent iff only nulls were read |
| Watermark.RepeatedRunIsEmptyIff | app/infrastructure/adapters/compute/rest_api_helpers.py:131-153 | running again at once reads nothing iff stripping the maximum did not move it down in the column's order |
| IncrementalHistories.BlankReadTwice | app/infrastructure/adapters/compute/rest_api_helpers.py:131-153 | a text that loses its last blank is read twice |
| PipelineRuns.LatestRowIs | app/infrastructure/persistence/repositories/sql_pipeline_run_repository.py:137-154 | the query returns a successful or partial run with a watermark that started last, and none iff there is none |
| PipelineRuns.FindLatestWatermarkIs | app/infrastructure/persistence/repositories/sql_pipeline_run_repository.py:137-154 | the watermark found is that of a run with status success or partial that started last, none if there is none or its text is empty |
| PipelineRuns.LatestAfterSave | app/infrastructure/persistence/repositories/sql_pipeline_run_repository.py:137-154 | saving a newer run replaces the stored watermark iff the run counts |
| PipelineRuns.ResaveWithoutWatermark | app/infrastructure/persistence/repositories/sql_pipeline_run_repository.py:67-87 | saving a known run again without a watermark changes nothing |
| PipelineRuns.PipelineRunRepository.Save | app/infrastructure/persistence/repositories/sql_pipeline_run_repository.py:58-119 | a new id is appended; of a known one the first row is overwritten in every field but the watermark, which stays when the new record has none |
| PipelineRuns.RecordPipelineRunUseCase.Execute | app/application/pipelines/record_pipeline_run_use_case.py:40-92 | either one record is written and all files claimed, or it raises and neither table changes; it raises for a status text it does not know, and a running, failed or quality_failed run is written without watermark |
| PipelineRuns.RowForIs | app/application/pipelines/record_pipeline_run_use_case.py:41-65 | status text by status text, what row is written: only success and partial keep the reported maximum, and they raise if it does not parse |
| PipelineRuns.OverrideWins | app/infrastructure/airflow_callbacks/ingestion_callbacks.py:159-161 | an override that is not blank is parsed with the declared type or raises, whatever is stored and whether the platform answers; a blank one is as none |
| PipelineRuns.ResolvesWithoutOverride | app/infrastructure/airflow_callbacks/ingestion_callbacks.py:163-177 | without one: an unreachable platform raises, a stored watermark comes before the initial value and raises if its type differs |
| Lineage.LinkedIsExact | app/domain/lineage/lineage_graph.py:39-64 | the built graph has a node for exactly the endpoints, a link for exactly the edges, the node object first seen for each key, and incoming as the transpose of adjacency on the same keys |
| Lineage.LineageGraph.AddNode | app/domain/lineage/lineage_graph.py:39-43 | a known key keeps its node; a new one gets empty link sets in both maps |
| Lineage.LineageGraph.AddEdge | app/domain/lineage/lineage_graph.py:45-49 | both endpoints become nodes and the link enters both maps |
| Lineage.LineageGraph.BuildFromMappings | app/domain/lineage/lineage_graph.py:51-64 | the loops add to the graph exactly a link from source to destination for every column mapping, and its two ends as nodes; known nodes stay, a new one is as it was first named, a destination with its expression |
| Lineage.BuiltIsExact | app/domain/lineage/lineage_graph.py:51-64 | the same of any graph and any list of mappings, said in terms of object ids and column names |
| Lineage.ReachesIffChain | app/domain/lineage/lineage_graph.py:31-64 | in a graph built from mappings one column reaches another iff a chain of column mappings leads there |
| Lineage.TracesFollowMappings | app/domain/lineage/lineage_graph.py:51-102 | a downstream trace lists exactly the columns some chain of mappings leads to, an upstream trace those some chain comes from |
| Lineage.Walk | app/domain/lineage/lineage_graph.py:72-83 | the search ends on every graph, cycles included, and returns without duplicates exactly the nodes reachable from the start other than the start, whatever order sets are pushed in |
| Lineage.LineageGraph.TraceUpstream | app/domain/lineage/lineage_graph.py:66-83 | the exact reachable set over incoming links; empty for an unknown key |
| Lineage.LineageGraph.TraceDownstream | app/domain/lineage/lineage_graph.py:85-102 | the exact reachable set over outgoing links; empty for an unknown key |
| Lineage.ReachesBackwards | app/domain/lineage/lineage_graph.py:31-37 | a reaches b over outgoing links iff b reaches a over incoming ones |
| Lineage.DownstreamIffUpstream | app/domain/lineage/lineage_graph.py:66-102 | for two different columns, b is in a's downstream trace iff a is in b's upstream trace |
| Lineage.KeysCollideIff | app/domain/lineage/lineage_graph.py:19-21 | two object ids can share a node key iff they are equal or one is the other's prefix up to a dot |
| Lineage.DotFreeKeysAreInjective | app/domain/lineage/lineage_graph.py:19-21 | without dots in object ids a key determines object and column |
| RestExtraction.ExtractAsync | app/infrastructure/adapters/compute/rest_api_compute_adapter.py:270-324 | the loop ends in the state the turn-by-turn specification reaches, or raises its error; what it has written is the records received, page by page, every field as it came plus the time the page arrived |
| RestExtraction.NothingLostInTheBuffer | app/infrastructure/adapters/compute/rest_api_compute_adapter.py:283-306 | after any number of turns, tables plus buffer are exactly the records received, in order, every field as it came plus the time its page arrived, and less than a batch is waiting; at the end nothing is; where pages gather into batches - any strategy but none and cursor - every table but the last holds at least a batch |
| RestExtraction.PeakBufferBound | app/infrastructure/adapters/compute/rest_api_compute_adapter.py:288-306 | just before a flush the buffer holds fewer than batch size plus one page of records |
| RestExtraction.StopsAtFirstShortPage | app/infrastructure/adapters/compute/rest_api_compute_adapter.py:283-309 | the loop stops right after the first short page, having written exactly the records of the pages up to it, field by field |
| RestExtraction.RemainderPageIsShort | app/infrastructure/adapters/compute/rest_api_compute_adapter.py:308-309 | for a positive page size a short page always comes |
| RestExtraction.CompleteIff | app/infrastructure/adapters/compute/rest_api_compute_adapter.py:308-309 | every record arrives iff none lies behind the first short page (items that are no records shorten a page) |
| RestExtraction.RecordsAreExtractedOnce | app/infrastructure/adapters/compute/rest_api_compute_adapter.py:275-321 | for a table of records: the i-th record written has the fields of the i-th row and the time of page i / page size, all rows are written, buffer empty, with n / page size + 1 requests and no fewer |
| RestExtraction.NonPositivePageSizeNeverFinishes | app/infrastructure/adapters/compute/rest_api_compute_adapter.py:308-309 | with a page size below 1 a counting strategy never ends normally; it ends, by raising, iff a request fails |
| RestExtraction.CursorExtraction | app/infrastructure/adapters/compute/rest_api_compute_adapter.py:314-321 | against a server that answers the `cursor` parameter: all pages up to the first short or last one are written, field by field, so a short page that names a cursor cuts the extraction off |
| RestExtraction.NoPagingExtraction | app/infrastructure/adapters/compute/rest_api_compute_adapter.py:308-309 | without paging there is one request with the configured parameters, and what it returns is written |
| RestExtraction.NoPagingSeesFifty | services/mock_store_api/main.py:96-106 | of the mock store it gets the first 50 orders with the status asked for |
| RestExtraction.EnvelopeIs | app/infrastructure/adapters/compute/rest_api_helpers.py:81-92 | the records of a response are those of the list itself, or of the first of data, items, results, records and content that holds a list |
| RestExtraction.DictsIs | app/infrastructure/adapters/compute/rest_api_helpers.py:81-92 | of a list the dictionaries are kept, in order, and nothing else |
| RestExtraction.PathFinds | app/infrastructure/adapters/compute/rest_api_helpers.py:70-78 | a dotted path finds what is nested under its keys, whatever lies beside it, and None where the first is missing |
| RestExtraction.EnvelopeOfData | app/infrastructure/adapters/compute/rest_api_helpers.py:81-92 | the store's envelope yields exactly the records of its data list |
| RestExtraction.OffsetStoreServesPages | app/infrastructure/adapters/compute/rest_api_helpers.py:181-183 | the offsets asked for select consecutive pages of a server that honours them |
| RestExtraction.OffsetLimitEndsIff | app/infrastructure/adapters/compute/rest_api_helpers.py:181-183 | against the mock store, which ignores offsets, offset_limit ends iff the first page is short |
| RestExtraction.EndlessOffsetRun | app/infrastructure/adapters/compute/rest_api_helpers.py:181-183 | one record and a page size of 1: no number of turns ends the loop |
| RestExtraction.MockStoreServesPages | services/mock_store_api/main.py:96-106 | page numbers from page_start on select consecutive slices of the orders with the status asked for |
| RestExtraction.MockStoreExtraction | services/mock_store_api/main.py:96-106 | client and store together: the orders with the status asked for, from the first page on, arrive once each, so all of them iff page_start is 1 or there are none |
| RestExtraction.PageStartBelowOneFails | services/mock_store_api/main.py:99-103 | a page_start below 1 makes the first request fail |
| RestExtraction.HasNextCountsAll | services/mock_store_api/main.py:48-56 | has_next is set iff orders of the whole table lie behind the page; total_pages is the least number of pages that holds all orders, 1 for a limit of 0 |
| RestExtraction.HasNextIsRightIff | services/mock_store_api/main.py:96-106 | has_next tells whether orders with the status asked for follow iff the page does not end between their number and the number of all orders |
| RestExtraction.WantedAre | services/mock_store_api/main.py:96-104 | no status, a null or an empty one asks for every order, any other for those that have it; the selection keeps the table's order |
| RestExtraction.ListOrdersAnswersIff | services/mock_store_api/main.py:96-106 | the store answers iff page and limit are numbers, the limit is not negative and the page does not lie before the first |
| SchemaDrift.DiffIsAPatch | app/domain/discovery/services/schema_differ.py:9-129 | replaying the diff's events on the previous name-to-type map gives the current one, and the current nullability of every surviving field |
| SchemaDrift.DiffBackUndoes | app/domain/discovery/services/schema_differ.py:9-129 | replaying the diff and then the reverse diff on the previous shape gives the previous names and types again, and the previous nullability of every field in both |
| SchemaDrift.EmptyDiffIff | app/domain/discovery/services/schema_differ.py:9-129 | there are no events iff both snapshots have the same names, types and nullability |
| SchemaDrift.DiffHoldsIff | app/domain/discovery/services/schema_differ.py:9-101 | an event is in the diff iff it is the addition, removal, change of type or change of nullability that some name calls for, with its object id, name and types |
| SchemaDrift.DiffInOrder | app/domain/discovery/services/schema_differ.py:16-129 | no event comes twice: changes come in the order of the new fields, type before nullability, removals after them in the order of the old |
| Schema.NamesInOrder | app/domain/discovery/services/schema_differ.py:13-14 | without repeated names that order is the order of the fields |
| SchemaDrift.NoBlockingIff | app/infrastructure/drift_classifier.py:10-15 | no blocking event iff every old column survives with a type that still holds its values |
| SchemaDrift.NoCriticalIff | app/domain/discovery/drift_event.py:8-39 | no critical event iff moreover no nullable column becomes required |
| SchemaDrift.NonBlockingHistoriesCompose | app/domain/discovery/schema_field.py:5-34 | a history of non-blocking steps of any length is non-blocking from first to last |
| SchemaDrift.NonCriticalHistoriesCompose | app/domain/discovery/schema_field.py:5-34 | the same for steps without critical events |
| SchemaDrift.CanProceedIff | app/infrastructure/drift_classifier.py:49-71 | extraction may proceed iff there is nothing to compare or every old column is still readable |
| Schema.CompatibilityComposes | app/domain/discovery/schema_field.py:5-34 | compatibility of types is transitive |
| Schema.WideningIsOneWay | app/domain/discovery/schema_field.py:5-34 | two types are compatible both ways iff they differ in case only |
| Schema.CompatibleIff | app/domain/discovery/schema_field.py:5-34 | two types are compatible iff they differ in case only or the new one stands higher on the ladder integer, bigint, float, decimal |
| Schema.LowerIs | app/domain/discovery/schema_field.py:26-34 | lower-casing turns the letters A to Z into a to z, one by one, and changes nothing else |
| Schema.MappedTypeIs | app/domain/objects/object_service.py:116-120 | a type text is catalogued as the element type it names, any other as a string |
| SchemaDiffer.CheckAddedAndChangedFields | app/domain/discovery/services/schema_differ.py:9-31 | the loop yields, in order, the events of added and changed fields |
| SchemaDiffer.CheckRemovedFields | app/domain/discovery/services/schema_differ.py:86-101 | the loop yields, in order, one event per removed field |
| SchemaDiffer.ComputeDiff | app/domain/discovery/services/schema_differ.py:104-129 | object added or removed, or the two loops' events one after the other |
| ObjectService.ApplyConverges | app/domain/objects/object_service.py:104-148 | an application raises iff a field clashes; if it returns, every field has an element of its mapped type and nullability, names stay unique, source types and elements outside the snapshot are as before |
| ObjectService.AppliedRowByRow | app/domain/objects/object_service.py:110-147 | attribute by attribute: an old row takes type, nullability and requirement from the field of its name and keeps everything else, or stays; each field without a row gets one behind them, made from the field alone |
| ObjectService.InStepIff | app/domain/objects/object_service.py:110-147 | in step means: for every field some element has its name, its mapped type and its nullability |
| ObjectService.ClashesIff | app/domain/objects/object_service.py:14-24 | a field clashes iff its element came as a string and the field asks for one of the six listed types while type or nullability differ |
| ObjectService.HealedClosedForm | app/domain/objects/object_service.py:110-147 | the write-by-write loop equals fixing every old row once and appending the missing fields in order |
| ObjectService.HealedRaisesIff | app/domain/objects/object_service.py:14-24 | it raises iff a field that needs changing meets an element whose source type makes the change lossy |
| ObjectService.WritesNothingIff | app/domain/objects/object_service.py:135-138 | it writes nothing iff every field already has a matching element |
| ObjectService.SecondApplicationWritesNothing | app/domain/objects/object_service.py:104-148 | applying the same snapshot again writes nothing |
| ObjectService.AppliedFitsIff | app/domain/objects/object_service.py:104-148 | after applying one snapshot the object is in step with another iff each field of the other is asked for alike by the applied one, or is not named by it and has its element already |
| ObjectService.DataObjectService.AddElement | app/domain/objects/object_service.py:77-79 | appends the element to its object and changes nothing else, or raises |
| ObjectService.DataObjectService.OverrideElementDestination | app/domain/objects/object_service.py:81-102 | overrides one row, or raises for an unknown object or a lossy change and writes nothing |
| ObjectService.DataObjectService.ApplySchemaSnapshot | app/domain/objects/object_service.py:104-148 | the loop of repository calls leaves the store the specification gives, also when it raises half way |
| Discovery.BuildDataElements | app/application/discovery/discovery_provisioning_service.py:44-66 | one element per field, in order, each with an id of its own and name, types, nullability and key flag of the field |
| Discovery.DiscoveryProvisioningService.ProvisionMissingObjects | app/application/discovery/discovery_provisioning_service.py:81-130 | adds an object for every name not in the index, and gives every snapshot its object's id |
| Discovery.ComputeDrifts | app/domain/discovery/services/schema_drift_service.py:35-46 | the events of every current snapshot against the previous one of the same object |
| Discovery.MetadataSelfHealingService.ApplySelfHealingAndApprovals | app/application/discovery/metadata_self_healing_service.py:50-70 | the nested loops leave the objects, approvals and error of the specification |
| Discovery.MetadataSelfHealingService.HealSnapshot | app/application/discovery/metadata_self_healing_service.py:51-70 | one turn of the outer loop: the snapshot is applied for informative drift or a first run, then its critical events are filed |
| Discovery.MetadataSelfHealingService.FileApprovals | app/application/discovery/metadata_self_healing_service.py:59-70 | appends one pending approval per critical event, in order, with its run, asset, object, kind of change and field |
| DiscoveryUseCases.DiscoveryRun.Start | app/domain/discovery/discovery_run.py:35-40 | only a pending run starts; otherwise nothing changes |
| DiscoveryUseCases.DiscoveryRun.Complete | app/domain/discovery/discovery_run.py:42-63 | only a running run completes, as partial iff there were soft failures |
| DiscoveryUseCases.DiscoveryRun.Fail | app/domain/discovery/discovery_run.py:65-71 | only a running run fails |
| DiscoveryUseCases.ResolveAssetIs | app/application/discovery/run_discovery_use_case.py:41-60 | a name, if given, decides which asset is meant, else the id; the request is refused without such an asset or without its endpoint |
| DiscoveryUseCases.RunDiscoveryUseCase.Process | app/application/discovery/run_discovery_use_case.py:62-107 | commits objects, approvals and record together, or leaves the durable store untouched with the run in the state it had reached |
| DiscoveryUseCases.RunDiscoveryUseCase.Execute | app/application/discovery/run_discovery_use_case.py:33-126 | the whole use case over both transactions equals the specified discovery step |
| DiscoveryUseCases.RunDiscoveryUseCase.FailRunIfStarted | app/application/discovery/run_discovery_use_case.py:128-138 | writes a FAILED record iff the run object is still running |
| DiscoveryUseCases.DriftApprovalRecord.Decide | app/domain/discovery/drift_approval.py:29-45 | a decision is taken only on a pending approval |
| DiscoveryUseCases.ApproveDriftUseCase.Approve | app/application/discovery/approve_drift_use_case.py:25-34 | decision and schema application in one transaction, equal to the specified step |
| DiscoveryUseCases.ApproveDriftUseCase.Reject | app/application/discovery/approve_drift_use_case.py:36-44 | the decision alone, equal to the specified step |
| DiscoveryUseCases.ApproveDriftUseCase.ApplyApprovedSchema | app/application/discovery/approve_drift_use_case.py:52-60 | applies the approved run's snapshot of the object, if there is one |
| DiscoveryHistory.ProvisionedOk | app/application/discovery/discovery_provisioning_service.py:94-130 | provisioning keeps ids and names unique, keeps old rows in place and indexes every name |
| DiscoveryHistory.EventsOfSnapshot | app/application/discovery/metadata_self_healing_service.py:51-53 | the events filtered for an object are those of its own snapshot's diff |
| DiscoveryHistory.RemovedObjectsGoUnreported | app/domain/discovery/services/schema_drift_service.py:38-40 | no discovery ever reports a removed object |
| DiscoveryHistory.OneApprovalPerCriticalEvent | app/application/discovery/metadata_self_healing_service.py:59-70 | after any prefix of the snapshots, exactly one pending approval per critical event, in order, none lost or rewritten |
| DiscoveryHistory.AppliedFacts | app/domain/objects/object_service.py:104-148 | a successful application puts its object in step and leaves every other object alone |
| DiscoveryHistory.RepairedFacts | app/application/discovery/metadata_self_healing_service.py:50-57 | a successful repair puts exactly the applied snapshots in step |
| CatalogueInStep.DiscoveryFacts | app/application/discovery/run_discovery_use_case.py:62-107 | what one successful discovery does to the store, object by object |
| CatalogueInStep.StepKeepsOk | app/application/discovery/run_discovery_use_case.py:62-107 | every event keeps the store's invariant |
| CatalogueInStep.ApprovalInStepIff | app/application/discovery/approve_drift_use_case.py:52-60 | an approval that goes through leaves its object in step with its latest snapshot (or any other) iff each field there is asked for alike by the approved snapshot, or is not named by it and has its element already |
| TableHistories.OutdatedApprovalTakesBack | app/application/discovery/approve_drift_use_case.py:52-60 | a history of three scans and two approvals: granting the later change puts the table in step, granting the earlier one takes it out again |
| CatalogueInStep.StepKeepsStale | app/application/discovery/run_discovery_use_case.py:62-107 | every event keeps the stale set exact for every object ever recorded, judged by the elements before the event |
| CatalogueInStep.WithheldInStepIff | app/application/discovery/metadata_self_healing_service.py:50-57 | a withheld change leaves an object that was in step out of step iff some field changed its mapped type or nullability; a withheld removal does not |
| CatalogueInStep.CatalogueInStepIff | app/application/discovery/run_discovery_use_case.py:62-107 | over any history of discoveries and decisions, every object ever recorded, missing from later runs or not, is in step with its latest snapshot iff it is not in the stale set: not left behind by a withheld change, nor taken back by an approval, since it was last in step |
| DiscoveryResults.CatalogueAlwaysInStep | app/application/discovery/run_discovery_use_case.py:62-107 | over any history in which no change is critical only, every object ever recorded has an element of the mapped type and nullability for every field of its latest snapshot |
| DiscoveryResults.UnchangedSourceIsQuiet | app/application/discovery/run_discovery_use_case.py:62-107 | a further run on an unchanged source gives no event, no object, no element write, no approval |
| DiscoveryResults.ApprovalAccounting | app/application/discovery/metadata_self_healing_service.py:59-70 | a successful run files exactly one pending approval per critical event of its own record |
| DiscoveryResults.CriticalOnlyObjectsAreNotWritten | app/application/discovery/metadata_self_healing_service.py:50-57 | with a run to compare with, an object all of whose events are critical keeps its elements |
| DiscoveryResults.RaisingDiscoveryLeavesARecordIff | app/application/discovery/run_discovery_use_case.py:113-138 | a raising discovery changes the store iff the scan itself failed, and then by one FAILED record; later baselines do not change |
| TableHistories.HealingRaises | app/application/discovery/run_discovery_use_case.py:113-138 | a discovery that raises while it heals, and leaves no record |
| HealingOutcomes.AppliedAtOnceIff | app/application/discovery/metadata_self_healing_service.py:50-57 | a snapshot is applied before anyone is asked, its critical changes included, iff its object was not in the last run or its diff also holds an event that is not critical; otherwise the elements stay |
| TableHistories.ChangeSlipsThrough | app/application/discovery/metadata_self_healing_service.py:50-57 | a history of two scans after which a type change is in the catalogue and its approval still pending |
| HealingOutcomes.HealingRaisesIff | app/application/discovery/metadata_self_healing_service.py:50-57 | a discovery raises while it heals iff a snapshot it applies asks an element for a lossy change |
| HealingOutcomes.RaisesAgain | app/domain/objects/object_service.py:14-24 | whatever happens in between: while the asset's last run and the object's elements are the same, every scan that finds the table in the same shape raises |
| HealingOutcomes.RetriesRaise | app/application/discovery/run_discovery_use_case.py:113-138 | after any number of such retries the store is as it was and the next one raises |
| DiscoveryResults.ApprovalIsAtomic | app/application/discovery/approve_drift_use_case.py:25-34 | an approval takes effect whole, decision and schema, or leaves the store as it was |
| DiscoveryResults.StepOnApproval | app/domain/discovery/drift_approval.py:29-45 | no event changes an approval except from pending to the decision asked for |
| DiscoveryResults.DecisionsStand | app/domain/discovery/drift_approval.py:29-45 | a decision once taken stands in every later store |
| DiscoveryResults.ApprovalRaisesIff | app/application/discovery/approve_drift_use_case.py:25-34 | an approval raises iff it is unknown or already decided, or its snapshot asks an element for a lossy change, or its object is gone |
| DiscoveryResults.DestructiveApprovalNeverSucceeds | app/domain/objects/object_service.py:14-24 | a pending approval whose field asks for a lossy change raises at every later attempt, whatever happens in between |
| TableHistories.HopelessIsReached | app/domain/objects/object_service.py:14-24 | a history of two scans that files such an approval |
| UnitOfWork.NestingIsTransparent | app/infrastructure/persistence/sql_unit_of_work.py:101-120 | a nested script and its flat form leave the same durable writes, session and session counts |
| UnitOfWork.DurableAreTheSurvivors | app/infrastructure/persistence/sql_unit_of_work.py:95-120 | the durable writes are exactly those that reach a commit with no rollback in between, in order |
| UnitOfWork.SessionIffInside | app/infrastructure/persistence/sql_unit_of_work.py:101-120 | a session exists iff a block is open; one is opened and closed per outermost block |
| UnitOfWork.SqlUnitOfWork.Enter | app/infrastructure/persistence/sql_unit_of_work.py:101-105 | opens a session only at depth 0 |
| UnitOfWork.SqlUnitOfWork.Exit | app/infrastructure/persistence/sql_unit_of_work.py:107-120 | rolls back on an exception at any depth, closes at depth 0 |
| UnitOfWork.SqlUnitOfWork.Commit | app/infrastructure/persistence/sql_unit_of_work.py:95-99 | makes the session's writes durable |
| UnitOfWork.SqlUnitOfWork.Rollback | app/infrastructure/persistence/sql_unit_of_work.py:95-99 | drops the session's writes |
| CircuitBreaker.AlwaysConsistent | app/infrastructure/resilience/circuit_breaker.py:50-89 | under any interleaving of begin, success, failure and cancel: CLOSED iff no opening time is set, and the count stays below the threshold |
| CircuitBreaker.AdmittedInWindowIff | app/infrastructure/resilience/circuit_breaker.py:57-89 | from a failure that opens the breaker, a probe's or the threshold's, to the end of the timeout, a call is let in iff a call already under way has succeeded in between and fewer calls than the threshold have failed since |
| CircuitBreaker.ClosedInWindowIff | app/infrastructure/resilience/circuit_breaker.py:57-87 | in that time the breaker is closed exactly then, with the number of those failures as its count; otherwise open, and never half open |
| CircuitBreaker.NoAdmissionBeforeASuccess | app/infrastructure/resilience/circuit_breaker.py:57-89 | in that time nothing is admitted until a call under way succeeds |
| CircuitBreaker.OpenedAtTheLastTrip | app/infrastructure/resilience/circuit_breaker.py:72-89 | over any history from a new breaker, one that is not closed carries the time of the failure that last opened it, and the count is the calls that failed since then or since the last success |
| CircuitBreaker.SuccessUnderWayLetsCallsIn | app/infrastructure/resilience/circuit_breaker.py:72-77 | a history in which a call under way succeeds and the next is let in before the timeout |
| CircuitBreaker.RejectedIff | app/infrastructure/resilience/circuit_breaker.py:57-62 | a call leaves everything as it was iff the breaker is open before its timeout |
| CircuitBreaker.SequentialUse | app/infrastructure/resilience/circuit_breaker.py:50-89 | one call after the other: never HALF_OPEN between calls, CLOSED iff the trailing failures are below the threshold, and then the count is their number |
| CircuitBreaker.OneCallIsItsSteps | app/infrastructure/resilience/circuit_breaker.py:50-70 | a call run without interruption is its steps |
| CircuitBreaker.HalfOpenAdmitsAll | app/infrastructure/resilience/circuit_breaker.py:57-66 | half open, any number of calls is admitted, not one probe |
| CircuitBreaker.HalfOpenLeftIff | app/infrastructure/resilience/circuit_breaker.py:64-70 | the breaker leaves HALF_OPEN at some point iff some call under way ends other than by cancellation |
| CircuitBreaker.TwoProbesThenNone | app/infrastructure/resilience/circuit_breaker.py:57-70 | a history with two probes under way, and none to settle the breaker after both are cancelled |
| CircuitBreaker.AsyncCircuitBreaker.Begin | app/infrastructure/resilience/circuit_breaker.py:57-62 | admits or rejects, moving OPEN to HALF_OPEN after the timeout |
| CircuitBreaker.AsyncCircuitBreaker.OnSuccess | app/infrastructure/resilience/circuit_breaker.py:72-77 | a success closes the breaker from any state, open included, and clears count and opening time |
| CircuitBreaker.AsyncCircuitBreaker.OnFailure | app/infrastructure/resilience/circuit_breaker.py:79-89 | a failure when half open or at the threshold opens the breaker at this instant and clears the count; any other only counts |
| CircuitBreaker.AsyncCircuitBreaker.TransitionTo | app/infrastructure/resilience/circuit_breaker.py:84-89 | opening sets the time and clears the count |
| PermissionCache.StalenessIsBoundedIff | app/auth/permission_resolver.py:22-33 | over every database and every interleaving of calls on the given role lists, every answer is the database's union for those roles at an instant less than the ttl before the call or during it, iff any two of the lists that share a key name the same roles, or the ttl is not positive |
| PermissionCache.PlainListsAreApart | app/auth/permission_resolver.py:24 | lists of names that are not empty and hold no comma share a key only if they name the same roles |
| PermissionCache.CollidingListsAnswerWrong | app/auth/permission_resolver.py:24-33 | of two lists that share a key, where only the first names some role, the second is answered with a permission its roles never had |
| PermissionCache.KeysAgreeIff | app/auth/permission_resolver.py:24 | lists of non-empty comma-free names share a key iff they are permutations of each other |
| PermissionCache.CommasCollide | app/auth/permission_resolver.py:24 | with a comma in a name two different lists share a key |
| PermissionCache.UnionByNames | app/auth/permission_resolver.py:43-52 | the union depends on which roles are named, not on their order or repetition |
| PermissionCache.DatabasePermissionResolver.Lookup | app/auth/permission_resolver.py:22-29 | a fresh entry is served and counted; a miss changes nothing |
| PermissionCache.DatabasePermissionResolver.Remember | app/auth/permission_resolver.py:31-33 | the entry carries the time the call began |
| PermissionCache.DatabasePermissionResolver.InvalidateCache | app/auth/permission_resolver.py:35-41 | drops the entry of those roles and no other, or all entries |
| PermissionCache.InvalidationSparesOthers | app/auth/permission_resolver.py:35-41 | invalidating one list of roles leaves lists with another key cached and calls under way as they are |
| PermissionCache.InvalidationHoldsIff | app/auth/permission_resolver.py:31-41 | every call begun since an invalidation of its roles is answered with grants right at an instant since, whatever happens next, iff at that moment no call of those roles under way, younger than the ttl, held grants that had changed since it read them |
| PermissionCache.RevokedPermissionIsServed | app/auth/permission_resolver.py:31-41 | a history from an empty cache in which a revoked permission is served after the invalidation |
| PipelineYaml.PipelineComesBackIff | app/application/pipelines/pipeline_normalizer.py:27-100 | generated sections always read back, under any defaults; as the same pipeline iff no source has a sensor, no optional is empty but present, and every destination has a name and no schema fields |
| PipelineYaml.ComputeComesBack | app/application/pipelines/pipeline_normalizer.py:61-77 | the compute section comes back exactly, its two levels merged without loss |
| PipelineYaml.AirflowComesBack | app/application/pipelines/pipeline_normalizer.py:27-38 | the airflow section comes back exactly |
| PipelineYaml.AirflowTakesDefaults | app/application/pipelines/pipeline_normalizer.py:27-38 | with any entries missing the section reads as the same settings with the defaults in their place |
| PipelineYaml.ComputeLayers | app/application/pipelines/pipeline_normalizer.py:61-77 | a setting beside "config" wins over one inside it, and that over the default, setting by setting; it raises iff the default engine is needed and unknown |
| PipelineYaml.ComputeEntries | app/domain/pipelines/compute_config.py:32-52 | engine, bucket, workers and machine type are always written, every other entry iff it is set |
| PipelineYaml.ExtractionComesBack | app/application/pipelines/pipeline_normalizer.py:40-59 | extraction configs come back without their sensor and with empty optionals read as absent |
| PipelineYaml.ExtractionTakesDefaults | app/application/pipelines/pipeline_normalizer.py:40-59 | with any entries missing a source reads as the same one with defaults or nothing in their place; without the object name it raises |
| PipelineYaml.ExtractionItemByItem | app/application/pipelines/pipeline_normalizer.py:40-59 | a list of sources is read item by item, and not at all if one cannot be |
| PipelineYaml.SourceEntries | app/infrastructure/yaml_generator/pipeline_yaml_generator.py:70-103 | a source's dictionary has an entry for each optional field that is set and no other; a sensor goes in whole |
| PipelineYaml.EngineReadsIff | app/application/pipelines/pipeline_normalizer.py:61-77 | an engine is read from its own text and from nothing else |
| PipelineYaml.LoadStrategyReadsIff | app/application/pipelines/pipeline_normalizer.py:44 | so is a load strategy |
| PipelineYaml.WatermarkTypeReadsIff | app/application/pipelines/pipeline_normalizer.py:46-48 | so is a watermark type |
| PipelineYaml.RuleTypeReadsIff | app/application/pipelines/pipeline_normalizer.py:92-100 | so is a rule type |
| PipelineYaml.AsIntIs | app/application/pipelines/pipeline_normalizer.py:27-38 | int() drops a fraction towards zero, takes true as 1, and raises for None |
| PipelineYaml.CanonicalSourcesIff | app/application/pipelines/pipeline_normalizer.py:40-59 | exactly when they come back unchanged |
| PipelineYaml.RegeneratedSourceIff | app/infrastructure/yaml_generator/pipeline_yaml_generator.py:70-103 | what was read back generates the same dictionary iff there was no sensor |
| PipelineYaml.QualityComesBack | app/application/pipelines/pipeline_normalizer.py:92-100 | quality rules come back, a value of 0 included, with an empty column read as absent |
| PipelineYaml.QualityItemByItem | app/application/pipelines/pipeline_normalizer.py:92-100 | any list of rules is read item by item; a rule needs a known type and nothing else |
| PipelineYaml.DestinationsComeBack | app/application/pipelines/pipeline_normalizer.py:79-90 | destinations come back without schema fields, those without a name not at all |
| PipelineYaml.DestinationIs | app/application/pipelines/pipeline_normalizer.py:79-90 | any item is dropped iff its name is falsy; it is created by default, and schema fields written by hand are kept |
| PipelineYaml.CanonicalDestinationsIff | app/application/pipelines/pipeline_normalizer.py:79-90 | they come back unchanged iff all have a name and none has schema fields |
| PipelineYaml.SourceDict | app/infrastructure/yaml_generator/pipeline_yaml_generator.py:70-103 | the loop builds one dictionary per source object, with an entry per non-empty optional |
| PipelineYaml.QualityDict | app/infrastructure/yaml_generator/pipeline_yaml_generator.py:135-144 | the loop builds one dictionary per rule |
| PipelineYaml.ComputeDict | app/infrastructure/yaml_generator/pipeline_yaml_generator.py:124-133 | engine, bucket and engine configuration, and a selection if there is one |
| PipelineYaml.ToEngineConfig | app/domain/pipelines/compute_config.py:32-52 | sizes always, every other entry only when set |
| CatalogHistory.VersionsAreOneToN | app/infrastructure/adapters/catalog/database_catalog_adapter.py:55-87 | after any calls each object's versions are 1 to n in the order added |
| CatalogHistory.HistoryIsAppendOnly | app/infrastructure/adapters/catalog/database_catalog_adapter.py:125-167 | no later call changes or removes a version row |
| CatalogHistory.LatestIsLastPublishedWithTags | app/infrastructure/adapters/catalog/database_catalog_adapter.py:20-32 | the latest version is the last published snapshot, column by column in its order - name, both types, nullability, key flag and description - each with the tag last given to it since |
| CatalogHistory.NextPublicationAddsNothingIff | app/infrastructure/adapters/catalog/database_catalog_adapter.py:55-87 | publishing another snapshot right after adds no version iff the two agree in number of fields and in each of these attributes, field by field |
| CatalogHistory.RepublishAddsNothingIff | app/infrastructure/adapters/catalog/database_catalog_adapter.py:55-87 | publishing the same snapshot again adds no version iff no column of it was tagged in between |
| CatalogHistory.RepublishDropsTags | app/infrastructure/adapters/catalog/database_catalog_adapter.py:60-80 | the version a publication leaves carries no tags |
| CatalogHistory.TaggingAddsAVersionIff | app/infrastructure/adapters/catalog/database_catalog_adapter.py:132-155 | tagging adds a version iff the object was ever published, also when it names no column |
| CatalogHistory.LineageIs | app/infrastructure/adapters/catalog/database_catalog_adapter.py:89-123 | each edge published has exactly one row, with the id of its first mapping and, one by one, the source column, destination column and expression of its last |
| CatalogHistory.RowsComeFromMappings | app/infrastructure/adapters/catalog/database_catalog_adapter.py:103-123 | no row exists for an edge never published |
| CatalogHistory.DatabaseCatalogAdapter.PublishSchema | app/infrastructure/adapters/catalog/database_catalog_adapter.py:55-87 | adds the next version iff the stored columns differ from the incoming ones; a version added holds the snapshot's fields attribute by attribute, without tags |
| CatalogHistory.DatabaseCatalogAdapter.UpdatePolicyTags | app/infrastructure/adapters/catalog/database_catalog_adapter.py:125-155 | adds a tagged copy of the latest version, or nothing |
| CatalogHistory.DatabaseCatalogAdapter.PublishLineage | app/infrastructure/adapters/catalog/database_catalog_adapter.py:89-123 | updates the edge's row or inserts one; raises iff two rows share the edge |
| MongoSample.TypeIs | app/infrastructure/discovery/mongodb_runner.py:234-244 | a field is there iff its key occurs and is not _id; its type is the one all its values share, and str when they share none |
| MongoSample.SampleOrderDoesNotMatter | app/infrastructure/discovery/mongodb_runner.py:230-254 | permuting the documents changes the order of the fields and nothing else |
| MongoSample.SameObservationsSameTypes | app/infrastructure/discovery/mongodb_runner.py:234-244 | the types depend only on which types each key's values have |
| MongoSample.MoreDocumentsWiden | app/infrastructure/discovery/mongodb_runner.py:238-244 | more documents keep a field's type or turn it into str |
| MongoSample.JsonIff | app/infrastructure/discovery/mongodb_runner.py:35-43 | a field is json iff all its values are objects or all are arrays; one null value makes it a string |
| MongoSample.FieldsFromSample | app/infrastructure/discovery/mongodb_runner.py:230-254 | the nested loops yield one field per key, in order of first appearance, with the union's type |
| MongoSample.KeysAsTheyAppear | app/infrastructure/discovery/mongodb_runner.py:230-254 | the fields stand in the order in which their keys first occur in the sample |
| MongoSample.CataloguedAs | app/infrastructure/discovery/mongodb_runner.py:35-43 | integer, float, boolean, bytes or json iff all values share the type; anything else, mixed values included, is a string |

## Left out

- RestExtraction.ExtractAsync: states what the loop computes when it ends within a given bound; `RemainderPageIsShort`, `StopsAtFirstShortPage` and `CursorExtraction` say when it does, `NonPositivePageSizeNeverFinishes` and `OffsetLimitEndsIff` when it does not.
- Lineage.DotFreeKeysAreInjective: needs object ids without dots, which the platform's uuids are; `KeysCollideIff` says exactly which ids collide.
- PermissionCache.KeysAgreeIff: needs non-empty names without commas; `CommasCollide` shows why.
- Several pipeline runs of one pipeline at once, and overlapping discoveries of one asset: the DAGs allow one active run, and the discovery use case takes no lock.
- A commit or rollback that itself fails in the database.
- Descriptions, timestamps, audit rows, audit logs and policy-tag suggestions.
- Scope patterns and the inside of the discovery runners other than MongoDB's sampling; a scan is a list of snapshots or an error, with distinct object names, and distinct field names within one.
- The order of runs by completion time: runs complete in the order they are recorded.
- Element rows are addressed within their object; element ids are primary keys.
- Returned permission sets are values: a caller that mutates the cached set is not modelled.
- The Parquet file itself, and the error when two pages differ in schema.
- Dotted cursor paths are given already split; the string replacement of bind_sql_placeholder and bind_request_params.
- Characters beyond ASCII in lower-casing, and white space other than blank, tab and line ends in stripping.
- The schedule, transform and discovery-task sections of the YAML, which have no normaliser, and YAML as text; the keys of the dictionaries are an enumeration of the names both sides spell.
- Two sessions that publish a schema at once: versions are numbered without a constraint in the table.
- The reasons DriftClassifier words for a verdict.
- The JSON-schema validators of MongoDB collections, settled by reading one branch.
- Query parameters of the mock store as text: numbers and the status are compared as sent. The filters of customers and products, which are the same code.
- resolve_source_files, OmniBeam manifests, HTTP routers, DAG generation, external catalogues, notifications, secrets and telemetry: plumbing without a law of its own.

# Import recordset bookkeeping

A model of the bookkeeping kernel of `import.recordset` in the
`connector_importer` add-on: how a recordset summarises the states of its
queued jobs, how it stores and merges its import report, how the report is
turned into per-model outcome counts for display, how an importer's dotted
path is placed under the `odoo.addons.` namespace, and how the recordset's
display name is built.

- `job_state.dfy` (module `JobStates`): queue-job states, jobs, `import.record`
  children, and the global state as a function (`GlobalState`) with its lemmas.
- `report.dfy` (module `Reports`): the report as a map from string keys to
  JSON values, the shallow merge of `set_report` (`Updated`), and the
  per-model counting step of `_compute_report_html` (`OutcomeCounts`,
  `ByModel`, `Summarize`), with the ordered dictionary it fills modelled as a
  sequence of entries (`Put`, `Lookup`, `EntryKeys`).
- `recordset.dfy` (module `RecordSets`): the class `RecordSet` holding the
  recordset's job, its children and its stored report, whose methods update
  the report in place (`SetReport`), scan the children with an early exit
  (`GlobalJobState`) and fill the per-model view with nested loops
  (`ReportSummary`, `CountOutcomes`); each method is proved equal to the
  function above.
- `importer_path.dfy` (module `ImporterPaths`): the prefix rule of
  `get_record_importer`.
- `display_name.dfy` (module `DisplayNames`): `_compute_name`.
- `json.dfy`, `wrappers.dfy`: decoded JSON values with Python's `len`, and
  `Option`/`Result`.

Where the code and its own descriptions disagree, the model follows the code:

- The help text of `jobs_global_state` says a sub job that is neither DONE nor
  FAILED makes the global state PENDING. The code returns the state of the
  first child job that is not DONE, whatever it is, FAILED included
  (`connector_importer/models/recordset.py:169-171`). `GlobalState` does the same.
- The per-model view is not failure-free. `report.pop('_last_start')` raises
  when a stored report has no `_last_start` key. A model whose entry is not a
  mapping, or an outcome whose value has no length, raises as well.
  `Summarize` returns `Err(MissingLastStart)`, `Err(NotAMapping(model))` or
  `Err(WithoutLength(model))` in these cases. An empty `jsondata` field is
  skipped (`NotRendered`), as the code's `continue` does.
- Queue-job states come from the queue-job add-on, which is not part of this
  model. They are represented as `Pending`, `Enqueued`, `Started`, `Done`,
  `Failed`, and only `Done` is treated specially.

## Model

| member | source | states |
|---|---|---|
| `JobStates.FirstUnsettled` | connector_importer/models/recordset.py:164-171 | the index found is the first child, in order, that has a job whose state is not DONE; every child before it has no job or a DONE job; when none is found every child is such |
| `JobStates.GlobalState` | connector_importer/models/recordset.py:159-172 | DONE when the recordset has no job; otherwise not DONE exactly when some child has a job that is not DONE |
| `JobStates.AllSettledIsDone` | connector_importer/models/recordset.py:163-172 | with a job of its own and every child without a job or with a DONE job (no children included), the recordset is DONE |
| `JobStates.FirstUnsettledDecides` | connector_importer/models/recordset.py:164-171 | the state of the first child, in order, with a non-DONE job is the global state; children without a job are skipped |
| `JobStates.LaterRecordsIgnored` | connector_importer/models/recordset.py:169-171 | the scan stops at the first non-DONE child: appending children after it never changes the result |
| `JobStates.OrderSensitivity` | connector_importer/models/recordset.py:164-171 | children [DONE, STARTED, FAILED] give STARTED and [DONE, FAILED, STARTED] give FAILED |
| `RecordSets.RecordSet.GlobalJobState` | connector_importer/models/recordset.py:159-172 | the loop with its early break returns exactly `GlobalState` of the recordset's job and children |
| `RecordSets.RecordSet.GetReport` | connector_importer/models/recordset.py:116-118 | with nothing stored the report is the empty mapping, otherwise it is the stored report |
| `RecordSets.RecordSet.SetReport` | connector_importer/models/recordset.py:104-114 | the stored report becomes `Updated(previous report, values, reset)`; after a reset a read returns exactly `values`; after a merge the keys are the old keys plus the new ones |
| `Reports.Updated` | connector_importer/models/recordset.py:109-113 | every key of `values` takes its new value; on a merge every key only in the old report keeps its old value; no other key appears |
| `Reports.MergeOntoEmptyIsReset` | connector_importer/models/recordset.py:109-118 | merging onto the empty report (what a read gives when nothing is stored) equals a reset |
| `Reports.MergesAccumulate` | connector_importer/models/recordset.py:111-114 | two merges in a row equal one merge of the second write on top of the first |
| `Reports.ResetForgets` | connector_importer/models/recordset.py:109-110 | a reset discards everything written before it |
| `Reports.MergeIdempotent` | connector_importer/models/recordset.py:111-113 | merging the same values twice equals merging them once |
| `Reports.OutcomeCounts` | connector_importer/models/recordset.py:139-140 | succeeds exactly when the model's entry is a mapping whose every outcome has a length; then maps each outcome key, and only those, to the length of its value; otherwise names the failure |
| `RecordSets.CountOutcomes` | connector_importer/models/recordset.py:139-140 | the inner loop over a bucket's outcomes returns exactly `OutcomeCounts` |
| `Reports.Put` | connector_importer/models/recordset.py:136 | assignment into the ordered dictionary: an existing key keeps its position, a new key goes last; the key then holds the new value and every other key keeps its value |
| `Reports.Bucket` | connector_importer/models/recordset.py:139 | a model's bucket is its entry in the report, or the empty mapping when the report has none |
| `Json.Len` | connector_importer/models/recordset.py:140 | Python's `len`: the number of characters, items or keys of a string, list or mapping; no length for null, booleans and numbers |
| `Reports.ByModel` | connector_importer/models/recordset.py:133-140 | on success every listed model's bucket could be counted; on failure the error is that of the first model, in the caller's order, whose bucket cannot be counted |
| `Reports.ByModelShape` | connector_importer/models/recordset.py:133-140 | the per-model view succeeds exactly when every listed model can be counted; its keys are the listed models in first-occurrence order; each holds its bucket's counts; unlisted models are absent |
| `Reports.DedupKeepsFirstOccurrenceOrder` | connector_importer/models/recordset.py:133-136 | deduplicating a prefix of the model list gives a prefix of its deduplication: models are ordered by where they first occur |
| `Reports.DistinctModelsInOrder` | connector_importer/models/recordset.py:133-140 | with distinct models the view has exactly one entry per model, in the caller's order, holding the lengths of that model's outcome lists |
| `Reports.AbsentModelCountsNothing` | connector_importer/models/recordset.py:139 | a listed model missing from the report gets an empty outcome mapping |
| `Reports.Summarize` | connector_importer/models/recordset.py:123-140 | nothing is rendered without a stored report; a stored report never comes out as not rendered; a report without `_last_start` fails; otherwise `_last_start` is handed over separately, the buckets are looked up in the report with `_last_start` taken out, the view succeeds exactly when every listed model's bucket can be counted, and otherwise fails with the error of the first model, in order, that cannot be counted; on success it lists the models in first-occurrence order, each holding the lengths of its bucket's outcome lists |
| `RecordSets.RecordSet.ReportSummary` | connector_importer/models/recordset.py:123-140 | the nested loops over models and outcomes return exactly `Summarize` of the stored report |
| `ImporterPaths.Normalized` | connector_importer/models/recordset.py:23-24 | the result starts with `odoo.addons.`; a path that already does is unchanged; any other path gets the prefix in front of it |
| `ImporterPaths.NormalizedIdempotent` | connector_importer/models/recordset.py:23-24 | applying the rule twice equals applying it once |
| `ImporterPaths.NormalizedLosesOnlyPrefix` | connector_importer/models/recordset.py:23-24 | two paths with the same normal form are equal or differ only by the prefix |
| `ImporterPaths.RecordImporter` | connector_importer/models/recordset.py:20-26 | no path selects the default importer; a path selects the class at its normalised path |
| `DisplayNames.Decimal` | connector_importer/models/recordset.py:100 | the id is written as a non-empty string of decimal digits with no leading zero |
| `DisplayNames.DecimalRoundTrip` | connector_importer/models/recordset.py:100 | parsing the written id gives the id back |
| `DisplayNames.NonEmpty` | connector_importer/models/recordset.py:102 | `filter(None, …)` on strings: no longer than its input, holds exactly the non-empty input strings, and leaves a list without empty strings unchanged |
| `DisplayNames.NonEmptyAppend` | connector_importer/models/recordset.py:102 | filtering distributes over concatenation, so the kept parts stay in order and keep their repeats |
| `DisplayNames.Join` | connector_importer/models/recordset.py:102 | `' '.join`: no parts give the empty string, one part gives that part, otherwise the result starts with the first part and ends with the last |
| `DisplayNames.JoinAppend` | connector_importer/models/recordset.py:102 | joining two non-empty lists of parts is joining each and putting one separator between them |
| `DisplayNames.DisplayName` | connector_importer/models/recordset.py:95-102 | the name is `<backend name> #<id>`, or `#<id>` alone when the backend is missing or has an empty name |
| `DisplayNames.DisplayNameDeterminesId` | connector_importer/models/recordset.py:98-102 | two recordsets of the same backend with the same name have the same id |

## Left out

- ORM field declarations, `unlink` and `available_models`: persistence and framework glue. The available models are an input sequence of model names; the importer path paired with each name is not used by the counting loop and is dropped.
- `ir.model` lookups: the ordered view is keyed by the model name rather than by the `ir.model` record, so two unknown model names collapsing onto the same empty record is not modelled.
- Job queueing and execution (`import_recordset`, `run_import`, `with_delay`, `job.db_record()`): asynchronous execution by the queue-job add-on.
- `_compute_jobs_global_state`: it only stores `_get_global_state` per record, which `GlobalJobState` models.
- `debug_mode`: it reads the process environment variable `IMPORTER_DEBUG_MODE`.
- Template rendering in `_compute_report_html` and `_compute_docs_html`, and `_compute_full_report_url`: presentation only. `ReportSummary` stops at the data handed to the template.
- `generate_report`: foreign reporter calls and base64 file encoding.
- `_get_importers`, `import_klass_from_dotted_path` and `env.get_connector_unit`: dynamic class loading. `RecordImporter` returns which importer is asked for, not the loaded class.
- JSON text: `json.dumps`/`json.loads` are taken to round-trip the report exactly; the stored field holds the decoded map. Text that does not decode to an object, floating-point numbers and non-string keys are not modelled.
- `ensure_one` in `set_report` and the iteration over several records in the compute methods: the model acts on one recordset.
- `DisplayNames.DisplayName`: ids are natural numbers; the text of an unsaved record's temporary id is not modelled.
- `RecordSets.CountOutcomes`: on an outcome without a length the error names the model but not the outcome key, because which key raises first depends on dictionary iteration order.
- Concurrent read-modify-write of `jsondata`: the model is sequential.
- connector_importer/tests/test_source.py: it exercises fake source and consumer models that are not part of this model.

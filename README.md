# Job-record normaliser, modelled in Dafny

This project models the normalisation core of an Indeed job-listing crawler. The core takes
loosely structured job records, as decoded from JSON, and turns them into one fixed output shape.
It covers:

- the safe nested lookup `_get_nested`;
- the company-detail normaliser `parse_company_details`: fixed key paths, list projection, and
  pruning of empty sections;
- the job-record normaliser `parse_job`: field precedence, truthiness-gated time conversion,
  `job_types` coercion, the salary remainder, and `company_details or None`;
- the batch driver `process_jobs`, with per-record failure isolation;
- the top-level shape dispatch of `load_input_data`.

Files and modules:

- `wrappers.dfy` (`Wrappers`): `Option` and `Result`. A Python exception becomes `Err`.
- `json.dfy` (`JsonValue`): the decoded JSON tree `Json`. `Truthy` is Python's `bool()`,
  `Or` is Python's `or`, and `Get` is `dict.get`.
- `nested_path.dfy` (`NestedPath`): `_get_nested` as a loop method (`GetNested`). It is proved
  against the recursive function `PathValue` and against a second, left-to-right reference
  walk `Walk`.
- `company_parser.dfy` (`CompanyParser`): `parse_company_details` as a method with its two
  `append` loops and three `pop`s (`ParseCompanyDetails`). It is proved equal to the function
  `CompanyDetailsOf`, and the pruning and projection rules are lemmas about that function.
- `job_parser.dfy` (`JobParser`): `parse_job` as a method (`ParseJob`), proved equal to the
  function `JobRecordOf`. Each field rule and the exact failure condition are lemmas about it.
- `batch.dfy` (`Batch`): `process_jobs` (`ProcessJobs`) and the shape dispatch of `load_input_data`
  (`LoadInputData`) as loop methods. They are proved against `Successes`/`Failures` and
  `InputRecords`.

What the model represents, and how:

- **Output dicts.** These are typed datatypes (`CompanyDetails`, `Ceo`, `About`, `JobsSection`,
  `Category`, `Listing`, `JobRecord`, `Salary`, `Metadata`, `RawReference`). A leaf value the
  source copies through unchanged stays a `Json`.
- **Popped keys.** A key the source can pop (`ceo`, `about`, `jobs`, `salary.raw`) is an
  `Option` field, and `None` means the key is absent.
- **The company dict itself.** `CompanyDetails.ToJson` renders it, so that key-set facts and
  the truthiness test behind `company_details or None` are stated on the dict.
- **Duplicate lookup.** `src/parsers/job_parser.py:6-12` is an unused copy of `_get_nested`, so
  one model serves for both.
- **Time helpers.** `epoch_ms_to_iso` and `relative_time_to_days_ago` are the two fields of
  `Converters`, and the normaliser takes them as a parameter. The lemmas hold for every pair of
  total functions put there.
- **Logging.** `process_jobs` logs each failing record. The model returns those reports instead,
  as a second result: `FailureReport(index, error)`, where the index is 1-based as in the log line.
- **`max_jobs`.** Python's slice `raw_jobs[:max_jobs]` is written out in `SliceEnd`, including a
  negative `max_jobs`, which counts from the end.

Behaviour of the code that the model keeps, although a reader might expect otherwise:

- **`parse_job` can fail.** It fails when `salarySnippet` or `additionalLocationLink` is truthy
  but not a dict, because `.get` is then applied to a non-dict. `ParseJobOutcome` states the exact failure condition.
- **Section pruning.** `ceo` and `about` are pruned only when every field `is None`. An empty
  string keeps the section (`EmptyStringKeepsCeo`).
- **`job_types` elements.** In both the job record and the active listings, `job_types` holds
  whatever the source holds. Its elements are not checked to be strings.

## Model

| member | source | states |
|---|---|---|
| JsonValue.Or | src/parsers/job_parser.py:20 | Python `a or b`: the left value when truthy, otherwise the right; the result is truthy exactly when one operand is |
| NestedPath.GetNested | src/parsers/company_parser.py:3-9 | the lookup loop returns exactly the recursive path value `PathValue(d, path, default)` |
| NestedPath.PathValueStep | src/parsers/company_parser.py:3-9 | the empty path returns the input itself; a path `[k] + rest` continues from `d[k]` when `d` is a dict holding `k`, and gives the default otherwise |
| NestedPath.PathValueIsWalk | src/parsers/company_parser.py:5-9 | the lookup gives the walked value when every step finds a dict holding the key, and the default when some step does not |
| NestedPath.PathValueDefaultWhenBroken | src/parsers/company_parser.py:5-7 | once some prefix of the path reaches a non-dict or a dict without the next key, the result is the default; the lookup never fails |
| NestedPath.FalsyPathValue | src/parsers/company_parser.py:5-7 | a falsy starting value gives the default on every nonempty path |
| CompanyParser.CompanyDetails.ToJson | src/parsers/company_parser.py:103-135 | the result dict has only the keys `ceo`, `about`, `jobs`, one per surviving section, and is truthy exactly when some section survives |
| CompanyParser.ProjectListing | src/parsers/company_parser.py:94-101 | a listing's `job_types` defaults to the empty list: it is never `None`, `0`, `""` or `{}`, and an absent `jobTypes` gives `[]` |
| CompanyParser.ParseCompanyDetails | src/parsers/company_parser.py:11-137 | the lookups, both `append` loops and the three `pop`s yield exactly `CompanyDetailsOf(input)` |
| CompanyParser.ProjectObjectsAppend | src/parsers/company_parser.py:73-101 | projecting a concatenated list is concatenating the projections, so source order is kept |
| CompanyParser.ProjectObjectsLength | src/parsers/company_parser.py:73-101 | at most one entry per source element; exactly one per element when all are dicts; none when no element is a dict |
| CompanyParser.ProjectObjectsMembers | src/parsers/company_parser.py:73-101 | an entry is present exactly when it is the projection of some dict element of the source list |
| CompanyParser.NonObjectGivesEmpty | src/parsers/company_parser.py:18-135 | a falsy input, and any input that is not a dict, gives `{}` |
| CompanyParser.ResultKeys | src/parsers/company_parser.py:103-135 | the key set of the result is a subset of `{ceo, about, jobs}` |
| CompanyParser.CeoPresence | src/parsers/company_parser.py:21-127 | `ceo` is present exactly when one of name and the three photo lookups is not `None`, and then holds those four values |
| CompanyParser.AboutPresence | src/parsers/company_parser.py:38-129 | `about` is present exactly when one of its six lookups is not `None`, and then holds those six values |
| CompanyParser.JobsPresence | src/parsers/company_parser.py:63-135 | `jobs` is absent exactly when the total count is `None` and both projected lists are empty; when present it holds them |
| CompanyParser.CategoriesProjection | src/parsers/company_parser.py:68-83 | a non-list source gives `[]`; otherwise `categories` is no longer than the source list, and an entry is present exactly when it projects some dict element |
| CompanyParser.ProjectionsInSourceOrder | src/parsers/company_parser.py:73-101 | one entry for a dict element and none for anything else, and the projection of a concatenation is the concatenation of the projections, so count and order follow the source list exactly |
| CompanyParser.ListingJobTypes | src/parsers/company_parser.py:85-101 | every active listing comes from a dict element of the source, with `job_types` equal to its truthy `jobTypes` or `[]` |
| CompanyParser.OnlyFoundedExample | src/parsers/company_parser.py:38-135 | a payload with only `aboutCompany.founded` gives only `about`, with the other five fields `None` |
| CompanyParser.EmptyStringKeepsCeo | src/parsers/company_parser.py:126-127 | an empty-string CEO name keeps the `ceo` section |
| JobParser.JobTypesOf | src/parsers/job_parser.py:43-45 | `[]` for a falsy value, the list itself for a truthy list, `[v]` for any other truthy `v` |
| JobParser.ParseJob | src/parsers/job_parser.py:14-92 | the record built statement by statement, or the raised error, equals `JobRecordOf(conv, raw)` |
| JobParser.ParseJobOutcome | src/parsers/job_parser.py:38-77 | success exactly when the input is a dict and both `salarySnippet` and `additionalLocationLink` are falsy or dicts; which error arises otherwise |
| JobParser.JobIdentity | src/parsers/job_parser.py:20-85 | `id` is the first truthy of `jobkey`, `adId`, `adBlob`, else raw `adBlob`; `title` precedence; plain fields and `raw_reference` copied verbatim |
| JobParser.JobTimes | src/parsers/job_parser.py:28-35 | `created_at`/`published_at`/`posted_days_ago` are `None` when their source is falsy (0 included) and the converter's result otherwise |
| JobParser.JobTypesCoercion | src/parsers/job_parser.py:43-45 | the record's `job_types` is `[]`, the source list, or `[v]`, by the source's truthiness and type |
| JobParser.JobSalary | src/parsers/job_parser.py:38-90 | `salary.raw` is present exactly when the salary dict has another key than the two known ones, and then holds exactly those keys with unchanged values |
| JobParser.JobTextAndMetadata | src/parsers/job_parser.py:50-80 | `description` is raw `description` when truthy, else `snippet`; `summary` is `snippet`; metadata copies its four sources |
| JobParser.JobCompanyDetails | src/parsers/job_parser.py:47-81 | `company_details` is `None` exactly when the company result is `{}`, otherwise that result; a non-dict source gives `None` |
| JobParser.EmptyRecordParses | src/parsers/job_parser.py:14-92 | a record with no fields parses, with every optional field `None` or empty |
| JobParser.FullTimeExample | src/parsers/job_parser.py:43-45 | `"Full-time"` becomes `["Full-time"]`; an absent `jobTypes` becomes `[]` |
| JobParser.RawReferenceReparses | src/parsers/job_parser.py:82-85 | a `raw_reference` dict fed back in as a raw record parses without error |
| Batch.Attempted | src/main.py:82 | all records without a limit; the first `min(m, len)` with a limit `m >= 0`; a negative limit `m` drops the last `min(-m, len)` records; always a prefix |
| Batch.ProcessJobs | src/main.py:75-97 | output is the in-order successes over the attempted prefix, reports are the 1-based failures, and the two counts add up to the attempted count |
| Batch.LoadInputData | src/main.py:64-73 | the list-or-envelope dispatch loop returns exactly `InputRecords(data)` |
| Batch.BatchCounts | src/main.py:85-96 | successes plus failures equals the number of records attempted |
| Batch.SuccessesAppend | src/main.py:85-88 | the successes of a concatenation are those of each part in order, so one failing record never affects another |
| Batch.SuccessMembers | src/main.py:85-88 | a record is in the output exactly when some attempted record parses to it |
| Batch.AllSucceed | src/main.py:85-88 | when every record parses, the output is the parsed records position by position and nothing is reported |
| Batch.FailureIndices | src/main.py:85-90 | each report carries its record's position plus one and that record's error, and every failing record is reported |
| Batch.SecondOfThreeFails | src/main.py:85-90 | three records whose second is not a dict give two outputs in order and one failure at index 2 |
| Batch.FirstListUnderIsFirst | src/main.py:69-71 | the envelope search returns the list under the first key that holds one, and fails only if no key does |
| Batch.InputShapes | src/main.py:64-73 | a top-level list is returned unchanged; a dict gives the first list among `items`, `results`, `jobs`; everything else is an error |

## Left out

- `epoch_ms_to_iso` and `relative_time_to_days_ago` (src/parsers/helpers_time.py): their bodies are not part of this model. They are parameters of the model, so no property depends on how they parse.
- Floating-point JSON numbers: the `Json` type has integers only.
- File reading in `load_input_data` (missing-file error, `json.load`), `load_config`, `resolve_path`, `configure_logging`, `parse_args`, `main`: configuration, file I/O and argument parsing.
- src/outputs/exporter.py: it only creates a directory and writes the JSON file.
- Logging calls: the failures `process_jobs` would log are returned as `FailureReport` values instead.
- Python exceptions other than the `.get` on a non-dict in `parse_job`, such as a converter that raises. The converters are taken to be total.
- Object identity and aliasing: `parse_job` puts the same list object into its output as it read from the input (`job_types`), but the model works on values, so this sharing is not represented.

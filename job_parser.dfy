/** `parse_job`: normalise one raw job record into the fixed output shape. */
module JobParser {
  import opened Wrappers
  import opened JsonValue
  import opened CompanyParser

  /** The two time helpers `parse_job` calls (`epoch_ms_to_iso`, `relative_time_to_days_ago`).
      Their bodies are not part of this model, so they are parameters: any total functions. */
  datatype Converters = Converters(epochMsToIso: Json -> Option<string>, relativeTimeToDaysAgo: Json -> Option<int>)

  /** Each way `parse_job` raises: a `.get` on something that is not a dict. */
  datatype ParseError =
    | NotAnObject            // `raw_job` itself
    | SalaryNotObject        // a truthy `salarySnippet`
    | LocationLinkNotObject  // a truthy `additionalLocationLink`

  /** `salary`; `raw` is `None` when the source pops the key. */
  datatype Salary = Salary(currency: Json, isTextFormatted: Json, raw: Option<map<string, Json>>)

  datatype Metadata = Metadata(advn: Json, locationCount: Json, additionalLocationLabel: Json,
                               additionalLocationUrl: Json)

  datatype RawReference = RawReference(jobkey: Json, adId: Json)

  /** The normalised job record. */
  datatype JobRecord = JobRecord(
    id: Json,
    title: Json,
    company: Json,
    location: Json,
    sourceLink: Json,
    createdAt: Option<string>,
    publishedAt: Option<string>,
    postedRelative: Json,
    postedDaysAgo: Option<int>,
    jobTypes: seq<Json>,
    salary: Salary,
    metadata: Metadata,
    summary: Json,
    description: Json,
    companyDetails: Option<CompanyDetails>,
    rawReference: RawReference)

  /** The two salary keys that get their own fields; every other key goes to `raw`. */
  const SalaryKnownKeys: set<string> := {"currency", "salaryTextFormatted"}

  /** A `.get` on the value `raw.get(key) or {}` succeeds: that value is falsy or a dict. */
  predicate FalsyOrObject(raw: map<string, Json>, key: string)
  {
    !Truthy(Get(raw, key)) || Get(raw, key).JObj?
  }

  /** `raw_job.get("jobTypes") or []`, wrapped in a list when it is not one. */
  function JobTypesOf(v: Json): (r: seq<Json>)
    ensures !Truthy(v) ==> r == []
    ensures Truthy(v) && v.JList? ==> r == v.items
    ensures Truthy(v) && !v.JList? ==> r == [v]
  {
    var jobTypes := Or(v, JList([]));
    if jobTypes.JList? then jobTypes.items else [jobTypes]
  }

  /** The salary dict minus its two known keys (every other key keeps its value). */
  function SalaryRemainder(salary: map<string, Json>): map<string, Json>
  {
    map k | k in salary && k !in SalaryKnownKeys :: salary[k]
  }

  /** What `parse_job` returns, or the error it raises. */
  function JobRecordOf(conv: Converters, rawJob: Json): Result<JobRecord, ParseError>
  {
    if !rawJob.JObj? then Err(NotAnObject)
    else
      var raw := rawJob.fields;
      var salary := Or(Get(raw, "salarySnippet"), JObj(map[]));
      if !salary.JObj? then Err(SalaryNotObject)
      else
        var link := Or(Get(raw, "additionalLocationLink"), JObj(map[]));
        if !link.JObj? then Err(LocationLinkNotObject)
        else
          var details := CompanyDetailsOf(Or(Get(raw, "companyDetails"), JObj(map[])));
          var remainder := SalaryRemainder(salary.fields);
          Ok(JobRecord(
            Or(Or(Get(raw, "jobkey"), Get(raw, "adId")), Get(raw, "adBlob")),
            Or(Get(raw, "title"), Get(raw, "displayTitle")),
            Get(raw, "company"),
            Get(raw, "formattedLocation"),
            Get(raw, "source_link"),
            if Truthy(Get(raw, "createDate")) then conv.epochMsToIso(Get(raw, "createDate")) else None,
            if Truthy(Get(raw, "pubDate")) then conv.epochMsToIso(Get(raw, "pubDate")) else None,
            Get(raw, "formattedRelativeTime"),
            if Truthy(Get(raw, "formattedRelativeTime"))
            then conv.relativeTimeToDaysAgo(Get(raw, "formattedRelativeTime")) else None,
            JobTypesOf(Get(raw, "jobTypes")),
            Salary(Get(salary.fields, "currency"), Get(salary.fields, "salaryTextFormatted"),
                   if remainder == map[] then None else Some(remainder)),
            Metadata(Get(raw, "advn"), Get(raw, "locationCount"), Get(link.fields, "label"), Get(link.fields, "url")),
            Get(raw, "snippet"),
            Or(Get(raw, "description"), Get(raw, "snippet")),
            if Truthy(details.ToJson()) then Some(details) else None,
            RawReference(Get(raw, "jobkey"), Get(raw, "adId"))))
  }

  /** `parse_job`, statement by statement; a raised exception becomes `Err`. */
  method ParseJob(conv: Converters, rawJob: Json) returns (r: Result<JobRecord, ParseError>)
    ensures r == JobRecordOf(conv, rawJob)
  {
    if !rawJob.JObj? {
      return Err(NotAnObject);
    }
    var raw := rawJob.fields;
    var jobId := Or(Or(Get(raw, "jobkey"), Get(raw, "adId")), Get(raw, "adBlob"));

    var title := Or(Get(raw, "title"), Get(raw, "displayTitle"));
    var company := Get(raw, "company");
    var location := Get(raw, "formattedLocation");
    var sourceLink := Get(raw, "source_link");

    // Timestamps: a converter runs only on a truthy source value
    var createDateMs := Get(raw, "createDate");
    var pubDateMs := Get(raw, "pubDate");
    var createdAt := if Truthy(createDateMs) then conv.epochMsToIso(createDateMs) else None;
    var publishedAt := if Truthy(pubDateMs) then conv.epochMsToIso(pubDateMs) else None;
    var formattedRelativeTime := Get(raw, "formattedRelativeTime");
    var daysAgo := if Truthy(formattedRelativeTime) then conv.relativeTimeToDaysAgo(formattedRelativeTime) else None;

    // The salary dict: a `.get` on it fails unless it is a dict
    var salary := Or(Get(raw, "salarySnippet"), JObj(map[]));
    if !salary.JObj? {
      return Err(SalaryNotObject);
    }
    var salaryCurrency := Get(salary.fields, "currency");
    var salaryTextFormatted := Get(salary.fields, "salaryTextFormatted");
    var salaryRaw := map k | k in salary.fields && k !in SalaryKnownKeys :: salary.fields[k];

    var jobTypes := Or(Get(raw, "jobTypes"), JList([]));
    if !jobTypes.JList? {
      jobTypes := JList([jobTypes]);
    }

    var companyDetailsRaw := Or(Get(raw, "companyDetails"), JObj(map[]));
    var companyDetails := ParseCompanyDetails(companyDetailsRaw);

    var advn := Get(raw, "advn");
    var locationCount := Get(raw, "locationCount");
    var additionalLocationLink := Or(Get(raw, "additionalLocationLink"), JObj(map[]));

    var snippet := Get(raw, "snippet");
    var description := Or(Get(raw, "description"), snippet);

    if !additionalLocationLink.JObj? {
      return Err(LocationLinkNotObject);
    }
    var record := JobRecord(
      jobId, title, company, location, sourceLink,
      createdAt, publishedAt, formattedRelativeTime, daysAgo,
      jobTypes.items,
      Salary(salaryCurrency, salaryTextFormatted, Some(salaryRaw)),
      Metadata(advn, locationCount, Get(additionalLocationLink.fields, "label"),
               Get(additionalLocationLink.fields, "url")),
      snippet, description,
      if Truthy(companyDetails.ToJson()) then Some(companyDetails) else None,
      RawReference(Get(raw, "jobkey"), Get(raw, "adId")));

    // `salary_raw or None`, then the `pop("raw")` of a `None` value
    if salaryRaw == map[] {
      record := record.(salary := record.salary.(raw := None));
    }
    return Ok(record);
  }

  // ---------------------------------------------------------------------------
  // Properties of parse_job

  /** `parse_job` fails exactly on a `.get` applied to a non-dict: the record itself, then a
      truthy non-dict `salarySnippet`, then a truthy non-dict `additionalLocationLink`. A
      non-dict `companyDetails` never makes it fail. */
  lemma ParseJobOutcome(conv: Converters, rawJob: Json)
    ensures JobRecordOf(conv, rawJob).Ok? <==>
            rawJob.JObj? && FalsyOrObject(rawJob.fields, "salarySnippet") &&
            FalsyOrObject(rawJob.fields, "additionalLocationLink")
    ensures JobRecordOf(conv, rawJob) == Err(NotAnObject) <==> !rawJob.JObj?
    ensures JobRecordOf(conv, rawJob) == Err(SalaryNotObject) <==>
            rawJob.JObj? && !FalsyOrObject(rawJob.fields, "salarySnippet")
    ensures JobRecordOf(conv, rawJob) == Err(LocationLinkNotObject) <==>
            rawJob.JObj? && FalsyOrObject(rawJob.fields, "salarySnippet") &&
            !FalsyOrObject(rawJob.fields, "additionalLocationLink")
  {
  }

  /** `id` is the first truthy of `jobkey`, `adId`, `adBlob`, or else the raw `adBlob` value;
      `title` is `title` when truthy, else `displayTitle`; the plain fields are copied; the
      raw reference keeps `jobkey` and `adId` verbatim. */
  lemma JobIdentity(conv: Converters, raw: map<string, Json>)
    requires JobRecordOf(conv, JObj(raw)).Ok?
    ensures var rec := JobRecordOf(conv, JObj(raw)).value;
      && (Truthy(Get(raw, "jobkey")) ==> rec.id == raw["jobkey"])
      && (!Truthy(Get(raw, "jobkey")) && Truthy(Get(raw, "adId")) ==> rec.id == raw["adId"])
      && (!Truthy(Get(raw, "jobkey")) && !Truthy(Get(raw, "adId")) ==> rec.id == Get(raw, "adBlob"))
      && (Truthy(rec.id) <==> Truthy(Get(raw, "jobkey")) || Truthy(Get(raw, "adId")) || Truthy(Get(raw, "adBlob")))
      && (Truthy(Get(raw, "title")) ==> rec.title == raw["title"])
      && (!Truthy(Get(raw, "title")) ==> rec.title == Get(raw, "displayTitle"))
      && rec.company == Get(raw, "company")
      && rec.location == Get(raw, "formattedLocation")
      && rec.sourceLink == Get(raw, "source_link")
      && rec.rawReference == RawReference(Get(raw, "jobkey"), Get(raw, "adId"))
  {
  }

  /** The converters run only on truthy inputs: an absent or falsy `createDate` (`0`
      included) gives no `created_at`, likewise `pubDate`, and a falsy
      `formattedRelativeTime` gives no `posted_days_ago`; the relative text is copied. */
  lemma JobTimes(conv: Converters, raw: map<string, Json>)
    requires JobRecordOf(conv, JObj(raw)).Ok?
    ensures var rec := JobRecordOf(conv, JObj(raw)).value;
      && (!Truthy(Get(raw, "createDate")) ==> rec.createdAt == None)
      && (Truthy(Get(raw, "createDate")) ==> rec.createdAt == conv.epochMsToIso(raw["createDate"]))
      && (!Truthy(Get(raw, "pubDate")) ==> rec.publishedAt == None)
      && (Truthy(Get(raw, "pubDate")) ==> rec.publishedAt == conv.epochMsToIso(raw["pubDate"]))
      && (!Truthy(Get(raw, "formattedRelativeTime")) ==> rec.postedDaysAgo == None)
      && (Truthy(Get(raw, "formattedRelativeTime")) ==>
            rec.postedDaysAgo == conv.relativeTimeToDaysAgo(raw["formattedRelativeTime"]))
      && rec.postedRelative == Get(raw, "formattedRelativeTime")
  {
  }

  /** `job_types` is always a list: `[]` for a falsy source, the source list itself when it is
      a truthy list, and `[v]` for any other truthy `v`. */
  lemma JobTypesCoercion(conv: Converters, raw: map<string, Json>)
    requires JobRecordOf(conv, JObj(raw)).Ok?
    ensures var rec := JobRecordOf(conv, JObj(raw)).value;
      && (!Truthy(Get(raw, "jobTypes")) ==> rec.jobTypes == [])
      && (Truthy(Get(raw, "jobTypes")) && raw["jobTypes"].JList? ==> rec.jobTypes == raw["jobTypes"].items)
      && (Truthy(Get(raw, "jobTypes")) && !raw["jobTypes"].JList? ==> rec.jobTypes == [raw["jobTypes"]])
  {
  }

  /** `salary.raw` is there exactly when the salary dict has a key other than `currency` and
      `salaryTextFormatted`, and then holds exactly those other keys with their values. */
  lemma JobSalary(conv: Converters, raw: map<string, Json>)
    requires JobRecordOf(conv, JObj(raw)).Ok?
    ensures var rec := JobRecordOf(conv, JObj(raw)).value;
      var s := if Truthy(Get(raw, "salarySnippet")) then raw["salarySnippet"].fields else map[];
      && rec.salary.currency == Get(s, "currency")
      && rec.salary.isTextFormatted == Get(s, "salaryTextFormatted")
      && (rec.salary.raw.Some? <==> exists k :: k in s && k != "currency" && k != "salaryTextFormatted")
      && (rec.salary.raw.Some? ==>
            rec.salary.raw.value.Keys == s.Keys - SalaryKnownKeys &&
            forall k :: k in rec.salary.raw.value ==> rec.salary.raw.value[k] == s[k])
  {
    var s := if Truthy(Get(raw, "salarySnippet")) then raw["salarySnippet"].fields else map[];
    var rem := SalaryRemainder(s);
    if k :| k in s && k != "currency" && k != "salaryTextFormatted" {
      assert k in rem;
    }
  }

  /** `description` is the raw `description` when truthy and `snippet` otherwise; `summary`
      is always `snippet`; the metadata copies its four source values. */
  lemma JobTextAndMetadata(conv: Converters, raw: map<string, Json>)
    requires JobRecordOf(conv, JObj(raw)).Ok?
    ensures var rec := JobRecordOf(conv, JObj(raw)).value;
      var link := if Truthy(Get(raw, "additionalLocationLink")) then raw["additionalLocationLink"].fields else map[];
      && rec.summary == Get(raw, "snippet")
      && (Truthy(Get(raw, "description")) ==> rec.description == raw["description"])
      && (!Truthy(Get(raw, "description")) ==> rec.description == Get(raw, "snippet"))
      && rec.metadata == Metadata(Get(raw, "advn"), Get(raw, "locationCount"), Get(link, "label"), Get(link, "url"))
  {
  }

  /** `company_details` is `None` exactly when `parse_company_details` returned `{}`, and is
      otherwise that result; a falsy or non-dict `companyDetails` gives `None`. */
  lemma JobCompanyDetails(conv: Converters, raw: map<string, Json>)
    requires JobRecordOf(conv, JObj(raw)).Ok?
    ensures var rec := JobRecordOf(conv, JObj(raw)).value;
      var details := CompanyDetailsOf(Or(Get(raw, "companyDetails"), JObj(map[])));
      && (rec.companyDetails.None? <==> details.ToJson() == JObj(map[]))
      && (rec.companyDetails.Some? ==> rec.companyDetails.value == details)
      && (!Get(raw, "companyDetails").JObj? ==> rec.companyDetails.None?)
  {
    if !Get(raw, "companyDetails").JObj? {
      NonObjectGivesEmpty(Or(Get(raw, "companyDetails"), JObj(map[])));
    }
  }

  /** The record of a job with no fields at all: every optional field is `None` or empty. */
  const BlankRecord := JobRecord(
    JNull, JNull, JNull, JNull, JNull, None, None, JNull, None, [],
    Salary(JNull, JNull, None), Metadata(JNull, JNull, JNull, JNull),
    JNull, JNull, None, RawReference(JNull, JNull))

  /** A record that is missing every optional field parses, to the blank record. */
  lemma EmptyRecordParses(conv: Converters)
    ensures JobRecordOf(conv, JObj(map[])) == Ok(BlankRecord)
  {
    assert SalaryRemainder(map[]) == map[];
  }

  /** The scalar `"Full-time"` becomes `["Full-time"]`, and an absent `jobTypes` becomes `[]`. */
  lemma FullTimeExample(conv: Converters)
    ensures JobRecordOf(conv, JObj(map["jobTypes" := JStr("Full-time")])).Ok?
    ensures JobRecordOf(conv, JObj(map["jobTypes" := JStr("Full-time")])).value.jobTypes == [JStr("Full-time")]
    ensures JobRecordOf(conv, JObj(map["title" := JStr("X")])).value.jobTypes == []
  {
  }

  /** Feeding an output `raw_reference` dict back in as a raw record does not fail. */
  lemma RawReferenceReparses(conv: Converters, rec: JobRecord)
    ensures JobRecordOf(conv, JObj(map["jobkey" := rec.rawReference.jobkey, "adId" := rec.rawReference.adId])).Ok?
  {
  }
}

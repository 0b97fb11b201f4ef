/** `parse_company_details`: project a vendor company payload onto a compact profile and
    drop the sections that carry nothing. */
module CompanyParser {
  import opened Wrappers
  import opened JsonValue
  import opened NestedPath

  /** The `ceo` section: the CEO's name and three photo URLs. */
  datatype Ceo = Ceo(name: Json, photo48: Json, photo96: Json, photo512: Json)
  {
    /** The pruning test: every field `is None`. */
    predicate AllNone() { name == JNull && photo48 == JNull && photo96 == JNull && photo512 == JNull }

    function ToJson(): Json
    {
      JObj(map["name" := name, "photo_48" := photo48, "photo_96" := photo96, "photo_512" := photo512])
    }
  }

  /** The `about` section: six company facts. */
  datatype About = About(founded: Json, revenueBand: Json, employeeRange: Json, industry: Json,
                         description: Json, headquarters: Json)
  {
    /** The pruning test: every field `is None`. */
    predicate AllNone()
    {
      founded == JNull && revenueBand == JNull && employeeRange == JNull && industry == JNull &&
      description == JNull && headquarters == JNull
    }

    function ToJson(): Json
    {
      JObj(map["founded" := founded, "revenue_band" := revenueBand, "employee_range" := employeeRange,
               "industry" := industry, "description" := description, "headquarters" := headquarters])
    }
  }

  /** One entry of `categories`. */
  datatype Category = Category(name: Json, key: Json, jobCount: Json)
  {
    function ToJson(): Json
    {
      JObj(map["name" := name, "key" := key, "job_count" := jobCount])
    }
  }

  /** One entry of `active_listings`. */
  datatype Listing = Listing(title: Json, location: Json, jobTypes: Json, postDate: Json)
  {
    function ToJson(): Json
    {
      JObj(map["title" := title, "location" := location, "job_types" := jobTypes, "post_date" := postDate])
    }
  }

  /** The `jobs` section. */
  datatype JobsSection = JobsSection(totalJobCount: Json, categories: seq<Category>, activeListings: seq<Listing>)
  {
    /** The pruning test: no count and both lists falsy. */
    predicate Blank() { totalJobCount == JNull && categories == [] && activeListings == [] }

    function ToJson(): Json
    {
      JObj(map["total_job_count" := totalJobCount,
               "categories" := JList(seq(|categories|, i requires 0 <= i < |categories| => categories[i].ToJson())),
               "active_listings" := JList(seq(|activeListings|, i requires 0 <= i < |activeListings| => activeListings[i].ToJson()))])
    }
  }

  /** The normalised company profile; a `None` section is a key that was popped from the dict. */
  datatype CompanyDetails = CompanyDetails(ceo: Option<Ceo>, about: Option<About>, jobs: Option<JobsSection>)
  {
    /** The dict `{}`. */
    predicate IsEmpty() { ceo.None? && about.None? && jobs.None? }

    /** The dict the source returns: one key per section that survived pruning, and no other key. */
    function ToJson(): (r: Json)
      ensures r.JObj? && r.fields.Keys <= {"ceo", "about", "jobs"}
      ensures ("ceo" in r.fields <==> ceo.Some?) && ("about" in r.fields <==> about.Some?) && ("jobs" in r.fields <==> jobs.Some?)
      ensures Truthy(r) <==> !IsEmpty()
    {
      var withCeo := if ceo.Some? then map["ceo" := ceo.value.ToJson()] else map[];
      var withAbout := if about.Some? then withCeo["about" := about.value.ToJson()] else withCeo;
      var withJobs := if jobs.Some? then withAbout["jobs" := jobs.value.ToJson()] else withAbout;
      assert ceo.Some? ==> "ceo" in withJobs;
      JObj(withJobs)
    }
  }

  /** The result for an input with nothing in it. */
  const NoDetails := CompanyDetails(None, None, None)

  /** The dict elements of a list, each projected by `project`, in list order: the shape of both
      `append` loops, which skip every element that is not a dict. */
  function ProjectObjects<T>(items: seq<Json>, project: map<string, Json> -> T): seq<T>
    decreases |items|
  {
    if items == [] then []
    else
      var last := items[|items| - 1];
      ProjectObjects(items[..|items| - 1], project) + (if last.JObj? then [project(last.fields)] else [])
  }

  function ProjectCategory(item: map<string, Json>): Category
  {
    Category(Get(item, "displayName"), Get(item, "key"), Get(item, "jobCount"))
  }

  function ProjectListing(listing: map<string, Json>): (r: Listing)
    ensures r.jobTypes == if Truthy(Get(listing, "jobTypes")) then listing["jobTypes"] else JList([])
    ensures !Truthy(r.jobTypes) ==> r.jobTypes == JList([])
    ensures "jobTypes" !in listing ==> r.jobTypes == JList([])
  {
    Listing(Get(listing, "title"), Get(listing, "location"), Or(Get(listing, "jobTypes"), JList([])),
            Get(listing, "postDate"))
  }

  /** `categories` built from the looked-up `jobCategories` value; a non-list gives `[]`. */
  function CategoriesOf(source: Json): seq<Category>
  {
    if source.JList? then ProjectObjects(source.items, ProjectCategory) else []
  }

  /** `active_listings` built from the looked-up `activeListings` value; a non-list gives `[]`. */
  function ListingsOf(source: Json): seq<Listing>
  {
    if source.JList? then ProjectObjects(source.items, ProjectListing) else []
  }

  /** The leaf lookups of the `ceo` section. */
  function CeoOf(cd: Json): Ceo
  {
    Ceo(PathValue(cd, ["aboutSectionViewModel", "aboutCeo", "name"], JNull),
        PathValue(cd, ["aboutSectionViewModel", "aboutCeo", "photoUrls", "48px"], JNull),
        PathValue(cd, ["aboutSectionViewModel", "aboutCeo", "photoUrls", "96px"], JNull),
        PathValue(cd, ["aboutSectionViewModel", "aboutCeo", "photoUrls", "512px"], JNull))
  }

  /** The leaf lookups of the `about` section. */
  function AboutOf(cd: Json): About
  {
    About(PathValue(cd, ["aboutSectionViewModel", "aboutCompany", "founded"], JNull),
          PathValue(cd, ["aboutSectionViewModel", "aboutCompany", "revenue"], JNull),
          PathValue(cd, ["aboutSectionViewModel", "aboutCompany", "employeeRange"], JNull),
          PathValue(cd, ["aboutSectionViewModel", "aboutCompany", "industry"], JNull),
          PathValue(cd, ["aboutSectionViewModel", "aboutCompany", "description"], JNull),
          PathValue(cd, ["aboutSectionViewModel", "aboutCompany", "headquarters"], JNull))
  }

  /** The lookups and list projections of the `jobs` section. */
  function JobsOf(cd: Json): JobsSection
  {
    JobsSection(PathValue(cd, ["jobsSectionViewModel", "totalJobCount"], JNull),
                CategoriesOf(PathValue(cd, ["jobsSectionViewModel", "jobCategories"], JList([]))),
                ListingsOf(PathValue(cd, ["jobsSectionViewModel", "activeListings"], JList([]))))
  }

  /** What `parse_company_details` returns, as a function of its input. */
  function CompanyDetailsOf(cd: Json): CompanyDetails
  {
    if !Truthy(cd) then NoDetails
    else
      CompanyDetails(if CeoOf(cd).AllNone() then None else Some(CeoOf(cd)),
                     if AboutOf(cd).AllNone() then None else Some(AboutOf(cd)),
                     if JobsOf(cd).Blank() then None else Some(JobsOf(cd)))
  }

  /** `parse_company_details`: the lookups, the two `append` loops and the three `pop`s. */
  method ParseCompanyDetails(companyDetails: Json) returns (parsed: CompanyDetails)
    ensures parsed == CompanyDetailsOf(companyDetails)
  {
    if !Truthy(companyDetails) {
      return NoDetails;
    }
    var ceoName := GetNested(companyDetails, ["aboutSectionViewModel", "aboutCeo", "name"], JNull);
    var ceoPhoto48 := GetNested(companyDetails, ["aboutSectionViewModel", "aboutCeo", "photoUrls", "48px"], JNull);
    var ceoPhoto96 := GetNested(companyDetails, ["aboutSectionViewModel", "aboutCeo", "photoUrls", "96px"], JNull);
    var ceoPhoto512 := GetNested(companyDetails, ["aboutSectionViewModel", "aboutCeo", "photoUrls", "512px"], JNull);

    var founded := GetNested(companyDetails, ["aboutSectionViewModel", "aboutCompany", "founded"], JNull);
    var revenue := GetNested(companyDetails, ["aboutSectionViewModel", "aboutCompany", "revenue"], JNull);
    var employeeRange := GetNested(companyDetails, ["aboutSectionViewModel", "aboutCompany", "employeeRange"], JNull);
    var industry := GetNested(companyDetails, ["aboutSectionViewModel", "aboutCompany", "industry"], JNull);
    var description := GetNested(companyDetails, ["aboutSectionViewModel", "aboutCompany", "description"], JNull);
    var headquarters := GetNested(companyDetails, ["aboutSectionViewModel", "aboutCompany", "headquarters"], JNull);

    var totalJobCount := GetNested(companyDetails, ["jobsSectionViewModel", "totalJobCount"], JNull);

    var jobCategoriesList := GetNested(companyDetails, ["jobsSectionViewModel", "jobCategories"], JList([]));
    var categories: seq<Category> := [];
    if jobCategoriesList.JList? {
      var items := jobCategoriesList.items;
      var i := 0;
      while i < |items|
        invariant 0 <= i <= |items|
        invariant categories == ProjectObjects(items[..i], ProjectCategory)
      {
        assert items[..i + 1][..i] == items[..i];
        if items[i].JObj? {
          categories := categories + [ProjectCategory(items[i].fields)];
        }
        i := i + 1;
      }
      assert items[..|items|] == items;
    }

    var activeListingsList := GetNested(companyDetails, ["jobsSectionViewModel", "activeListings"], JList([]));
    var activeListings: seq<Listing> := [];
    if activeListingsList.JList? {
      var listings := activeListingsList.items;
      var i := 0;
      while i < |listings|
        invariant 0 <= i <= |listings|
        invariant activeListings == ProjectObjects(listings[..i], ProjectListing)
      {
        assert listings[..i + 1][..i] == listings[..i];
        if listings[i].JObj? {
          activeListings := activeListings + [ProjectListing(listings[i].fields)];
        }
        i := i + 1;
      }
      assert listings[..|listings|] == listings;
    }

    var ceo := Ceo(ceoName, ceoPhoto48, ceoPhoto96, ceoPhoto512);
    var about := About(founded, revenue, employeeRange, industry, description, headquarters);
    var jobs := JobsSection(totalJobCount, categories, activeListings);
    parsed := CompanyDetails(Some(ceo), Some(about), Some(jobs));

    // Pruning: a section with nothing in it is removed from the result
    if ceo.AllNone() {
      parsed := parsed.(ceo := None);
    }
    if about.AllNone() {
      parsed := parsed.(about := None);
    }
    if totalJobCount == JNull && categories == [] && activeListings == [] {
      parsed := parsed.(jobs := None);
    }
  }

  // ---------------------------------------------------------------------------
  // The list projection

  /** Projecting a concatenation is concatenating the projections: the loops keep source order. */
  lemma {:induction false} ProjectObjectsAppend<T>(a: seq<Json>, b: seq<Json>, project: map<string, Json> -> T)
    ensures ProjectObjects(a + b, project) == ProjectObjects(a, project) + ProjectObjects(b, project)
    decreases |b|
  {
    if b == [] {
      assert a + b == a;
    } else {
      var init := b[..|b| - 1];
      assert (a + b)[..|a + b| - 1] == a + init;
      assert (a + b)[|a + b| - 1] == b[|b| - 1];
      ProjectObjectsAppend(a, init, project);
    }
  }

  /** At most one entry per source element, and exactly one per element when all are dicts. */
  lemma {:induction false} ProjectObjectsLength<T>(items: seq<Json>, project: map<string, Json> -> T)
    ensures |ProjectObjects(items, project)| <= |items|
    ensures (forall i :: 0 <= i < |items| ==> items[i].JObj?) ==> |ProjectObjects(items, project)| == |items|
    ensures (forall i :: 0 <= i < |items| ==> !items[i].JObj?) ==> ProjectObjects(items, project) == []
    decreases |items|
  {
    if items != [] {
      var init := items[..|items| - 1];
      assert forall i :: 0 <= i < |init| ==> init[i] == items[i];
      ProjectObjectsLength(init, project);
    }
  }

  /** An entry is in the result exactly when it is the projection of some dict element. */
  lemma {:induction false} ProjectObjectsMembers<T>(items: seq<Json>, project: map<string, Json> -> T, x: T)
    ensures x in ProjectObjects(items, project) <==>
            exists i :: 0 <= i < |items| && items[i].JObj? && x == project(items[i].fields)
    decreases |items|
  {
    if items != [] {
      var init := items[..|items| - 1];
      var last := items[|items| - 1];
      assert forall i :: 0 <= i < |init| ==> init[i] == items[i];
      ProjectObjectsMembers(init, project, x);
      if x in ProjectObjects(items, project) && x !in ProjectObjects(init, project) {
        assert last.JObj? && x == project(last.fields);
        assert items[|items| - 1] == last;
      }
    }
  }

  // ---------------------------------------------------------------------------
  // Properties of parse_company_details

  /** A falsy input, and every input that is not a dict, gives `{}`: every lookup returns its
      default, and all three sections are then pruned. */
  lemma NonObjectGivesEmpty(cd: Json)
    requires !Truthy(cd) || !cd.JObj?
    ensures CompanyDetailsOf(cd) == NoDetails
    ensures !Truthy(CompanyDetailsOf(cd).ToJson())
  {
  }

  /** The result dict never has a key other than `ceo`, `about` and `jobs`. */
  lemma ResultKeys(cd: Json)
    ensures CompanyDetailsOf(cd).ToJson().JObj?
    ensures CompanyDetailsOf(cd).ToJson().fields.Keys <= {"ceo", "about", "jobs"}
  {
  }

  /** `ceo` is present exactly when one of its four lookups `is not None`, and then holds them. */
  lemma CeoPresence(cd: Json)
    ensures CompanyDetailsOf(cd).ceo.Some? <==>
            (PathValue(cd, ["aboutSectionViewModel", "aboutCeo", "name"], JNull) != JNull ||
             PathValue(cd, ["aboutSectionViewModel", "aboutCeo", "photoUrls", "48px"], JNull) != JNull ||
             PathValue(cd, ["aboutSectionViewModel", "aboutCeo", "photoUrls", "96px"], JNull) != JNull ||
             PathValue(cd, ["aboutSectionViewModel", "aboutCeo", "photoUrls", "512px"], JNull) != JNull)
    ensures CompanyDetailsOf(cd).ceo.Some? ==> CompanyDetailsOf(cd).ceo.value == CeoOf(cd)
  {
    if !Truthy(cd) {
      FalsyPathValue(cd, ["aboutSectionViewModel", "aboutCeo", "name"], JNull);
      FalsyPathValue(cd, ["aboutSectionViewModel", "aboutCeo", "photoUrls", "48px"], JNull);
      FalsyPathValue(cd, ["aboutSectionViewModel", "aboutCeo", "photoUrls", "96px"], JNull);
      FalsyPathValue(cd, ["aboutSectionViewModel", "aboutCeo", "photoUrls", "512px"], JNull);
    }
  }

  /** `about` is present exactly when one of its six lookups `is not None`, and then holds them. */
  lemma AboutPresence(cd: Json)
    ensures CompanyDetailsOf(cd).about.Some? <==>
            (PathValue(cd, ["aboutSectionViewModel", "aboutCompany", "founded"], JNull) != JNull ||
             PathValue(cd, ["aboutSectionViewModel", "aboutCompany", "revenue"], JNull) != JNull ||
             PathValue(cd, ["aboutSectionViewModel", "aboutCompany", "employeeRange"], JNull) != JNull ||
             PathValue(cd, ["aboutSectionViewModel", "aboutCompany", "industry"], JNull) != JNull ||
             PathValue(cd, ["aboutSectionViewModel", "aboutCompany", "description"], JNull) != JNull ||
             PathValue(cd, ["aboutSectionViewModel", "aboutCompany", "headquarters"], JNull) != JNull)
    ensures CompanyDetailsOf(cd).about.Some? ==> CompanyDetailsOf(cd).about.value == AboutOf(cd)
  {
    if !Truthy(cd) {
      FalsyPathValue(cd, ["aboutSectionViewModel", "aboutCompany", "founded"], JNull);
      FalsyPathValue(cd, ["aboutSectionViewModel", "aboutCompany", "revenue"], JNull);
      FalsyPathValue(cd, ["aboutSectionViewModel", "aboutCompany", "employeeRange"], JNull);
      FalsyPathValue(cd, ["aboutSectionViewModel", "aboutCompany", "industry"], JNull);
      FalsyPathValue(cd, ["aboutSectionViewModel", "aboutCompany", "description"], JNull);
      FalsyPathValue(cd, ["aboutSectionViewModel", "aboutCompany", "headquarters"], JNull);
    }
  }

  /** `jobs` is absent exactly when the count `is None` and both projected lists are empty;
      when present it holds the projections of the two source lists. */
  lemma JobsPresence(cd: Json)
    ensures CompanyDetailsOf(cd).jobs.None? <==>
            (PathValue(cd, ["jobsSectionViewModel", "totalJobCount"], JNull) == JNull &&
             CategoriesOf(PathValue(cd, ["jobsSectionViewModel", "jobCategories"], JList([]))) == [] &&
             ListingsOf(PathValue(cd, ["jobsSectionViewModel", "activeListings"], JList([]))) == [])
    ensures CompanyDetailsOf(cd).jobs.Some? ==> CompanyDetailsOf(cd).jobs.value == JobsOf(cd)
  {
    if !Truthy(cd) {
      FalsyPathValue(cd, ["jobsSectionViewModel", "totalJobCount"], JNull);
      FalsyPathValue(cd, ["jobsSectionViewModel", "jobCategories"], JList([]));
      FalsyPathValue(cd, ["jobsSectionViewModel", "activeListings"], JList([]));
    }
  }

  /** `categories` has one entry per dict element of the source list, in order, none from
      anything else, so it is no longer than the source; a non-list source gives `[]`. */
  lemma CategoriesProjection(source: Json, c: Category)
    ensures !source.JList? ==> CategoriesOf(source) == []
    ensures source.JList? ==> |CategoriesOf(source)| <= |source.items|
    ensures source.JList? ==>
              (c in CategoriesOf(source) <==>
               exists i :: 0 <= i < |source.items| && source.items[i].JObj? &&
                           c == ProjectCategory(source.items[i].fields))
  {
    if source.JList? {
      ProjectObjectsLength(source.items, ProjectCategory);
      ProjectObjectsMembers(source.items, ProjectCategory, c);
    }
  }

  /** Both projections follow the source list element by element: a single element gives one
      entry when it is a dict and none otherwise, and the projection of a concatenation is the
      concatenation of the projections. Together these fix the whole result, count and order. */
  lemma ProjectionsInSourceOrder(a: seq<Json>, b: seq<Json>, x: Json)
    ensures CategoriesOf(JList([x])) == if x.JObj? then [ProjectCategory(x.fields)] else []
    ensures CategoriesOf(JList(a + b)) == CategoriesOf(JList(a)) + CategoriesOf(JList(b))
    ensures ListingsOf(JList([x])) == if x.JObj? then [ProjectListing(x.fields)] else []
    ensures ListingsOf(JList(a + b)) == ListingsOf(JList(a)) + ListingsOf(JList(b))
  {
    assert [x][..|[x]| - 1] == [] && [x][|[x]| - 1] == x;
    assert ProjectObjects([x], ProjectCategory) == if x.JObj? then [ProjectCategory(x.fields)] else [];
    assert ProjectObjects([x], ProjectListing) == if x.JObj? then [ProjectListing(x.fields)] else [];
    ProjectObjectsAppend(a, b, ProjectCategory);
    ProjectObjectsAppend(a, b, ProjectListing);
  }

  /** In every active listing, `job_types` is the source `jobTypes` when that is truthy and `[]` otherwise. */
  lemma ListingJobTypes(source: Json, l: Listing)
    requires l in ListingsOf(source)
    ensures exists m :: JObj(m) in source.items &&
              l.jobTypes == if Truthy(Get(m, "jobTypes")) then m["jobTypes"] else JList([])
  {
    ProjectObjectsMembers(source.items, ProjectListing, l);
    var i :| 0 <= i < |source.items| && source.items[i].JObj? && l == ProjectListing(source.items[i].fields);
    assert JObj(source.items[i].fields) in source.items;
  }

  /** Descending two dict levels of a path at once. */
  lemma EnterTwo(d: Json, k1: string, k2: string, rest: seq<string>, default: Json)
    requires d.JObj? && k1 in d.fields && d.fields[k1].JObj? && k2 in d.fields[k1].fields
    ensures PathValue(d, [k1, k2] + rest, default) == PathValue(d.fields[k1].fields[k2], rest, default)
  {
    assert ([k1, k2] + rest)[1..] == [k2] + rest;
    PathValueStep(d, k1, [k2] + rest, default);
    PathValueStep(d.fields[k1], k2, rest, default);
  }

  /** A path whose second key is missing gives the default. */
  lemma MissingSecond(d: Json, k1: string, k2: string, rest: seq<string>, default: Json)
    requires d.JObj? && k1 in d.fields && !(d.fields[k1].JObj? && k2 in d.fields[k1].fields)
    ensures PathValue(d, [k1, k2] + rest, default) == default
  {
    assert ([k1, k2] + rest)[1..] == [k2] + rest;
    PathValueStep(d, k1, [k2] + rest, default);
    PathValueStep(d.fields[k1], k2, rest, default);
  }

  /** The payload of the only-founded example. */
  const OnlyFounded := JObj(map["aboutSectionViewModel" :=
    JObj(map["aboutCompany" := JObj(map["founded" := JInt(1998)])])])

  lemma OnlyFoundedAbout()
    ensures AboutOf(OnlyFounded) == About(JInt(1998), JNull, JNull, JNull, JNull, JNull)
  {
    var cd := OnlyFounded;
    var about := ["aboutSectionViewModel", "aboutCompany"];
    EnterTwo(cd, "aboutSectionViewModel", "aboutCompany", ["founded"], JNull);
    EnterTwo(cd, "aboutSectionViewModel", "aboutCompany", ["revenue"], JNull);
    EnterTwo(cd, "aboutSectionViewModel", "aboutCompany", ["employeeRange"], JNull);
    EnterTwo(cd, "aboutSectionViewModel", "aboutCompany", ["industry"], JNull);
    EnterTwo(cd, "aboutSectionViewModel", "aboutCompany", ["description"], JNull);
    EnterTwo(cd, "aboutSectionViewModel", "aboutCompany", ["headquarters"], JNull);
    assert about + ["founded"] == ["aboutSectionViewModel", "aboutCompany", "founded"];
    assert about + ["revenue"] == ["aboutSectionViewModel", "aboutCompany", "revenue"];
    assert about + ["employeeRange"] == ["aboutSectionViewModel", "aboutCompany", "employeeRange"];
    assert about + ["industry"] == ["aboutSectionViewModel", "aboutCompany", "industry"];
    assert about + ["description"] == ["aboutSectionViewModel", "aboutCompany", "description"];
    assert about + ["headquarters"] == ["aboutSectionViewModel", "aboutCompany", "headquarters"];
  }

  lemma OnlyFoundedCeo()
    ensures CeoOf(OnlyFounded).AllNone()
  {
    var cd := OnlyFounded;
    var ceo := ["aboutSectionViewModel", "aboutCeo"];
    MissingSecond(cd, "aboutSectionViewModel", "aboutCeo", ["name"], JNull);
    MissingSecond(cd, "aboutSectionViewModel", "aboutCeo", ["photoUrls", "48px"], JNull);
    MissingSecond(cd, "aboutSectionViewModel", "aboutCeo", ["photoUrls", "96px"], JNull);
    MissingSecond(cd, "aboutSectionViewModel", "aboutCeo", ["photoUrls", "512px"], JNull);
    assert ceo + ["name"] == ["aboutSectionViewModel", "aboutCeo", "name"];
    assert ceo + ["photoUrls", "48px"] == ["aboutSectionViewModel", "aboutCeo", "photoUrls", "48px"];
    assert ceo + ["photoUrls", "96px"] == ["aboutSectionViewModel", "aboutCeo", "photoUrls", "96px"];
    assert ceo + ["photoUrls", "512px"] == ["aboutSectionViewModel", "aboutCeo", "photoUrls", "512px"];
  }

  lemma OnlyFoundedJobs()
    ensures JobsOf(OnlyFounded).Blank()
  {
    var cd := OnlyFounded;
    assert "jobsSectionViewModel" !in cd.fields;
    PathValueStep(cd, "jobsSectionViewModel", ["totalJobCount"], JNull);
    PathValueStep(cd, "jobsSectionViewModel", ["jobCategories"], JList([]));
    PathValueStep(cd, "jobsSectionViewModel", ["activeListings"], JList([]));
    assert ["jobsSectionViewModel"] + ["totalJobCount"] == ["jobsSectionViewModel", "totalJobCount"];
    assert ["jobsSectionViewModel"] + ["jobCategories"] == ["jobsSectionViewModel", "jobCategories"];
    assert ["jobsSectionViewModel"] + ["activeListings"] == ["jobsSectionViewModel", "activeListings"];
  }

  /** A payload that sets only `aboutCompany.founded` gives only an `about` section, with the
      other five fields `None`. */
  lemma OnlyFoundedExample()
    ensures CompanyDetailsOf(OnlyFounded) ==
            CompanyDetails(None, Some(About(JInt(1998), JNull, JNull, JNull, JNull, JNull)), None)
  {
    OnlyFoundedAbout();
    OnlyFoundedCeo();
    OnlyFoundedJobs();
  }

  /** An empty-string CEO name keeps the `ceo` section: the pruning test is `is None`, not falsiness. */
  lemma EmptyStringKeepsCeo()
    ensures CompanyDetailsOf(JObj(map["aboutSectionViewModel" :=
              JObj(map["aboutCeo" := JObj(map["name" := JStr("")])])])).ceo ==
            Some(Ceo(JStr(""), JNull, JNull, JNull))
  {
    var ceo := JObj(map["name" := JStr("")]);
    var view := JObj(map["aboutCeo" := ceo]);
    var cd := JObj(map["aboutSectionViewModel" := view]);
    var base := ["aboutSectionViewModel", "aboutCeo"];
    EnterTwo(cd, "aboutSectionViewModel", "aboutCeo", ["name"], JNull);
    EnterTwo(cd, "aboutSectionViewModel", "aboutCeo", ["photoUrls", "48px"], JNull);
    EnterTwo(cd, "aboutSectionViewModel", "aboutCeo", ["photoUrls", "96px"], JNull);
    EnterTwo(cd, "aboutSectionViewModel", "aboutCeo", ["photoUrls", "512px"], JNull);
    assert base + ["name"] == ["aboutSectionViewModel", "aboutCeo", "name"];
    assert base + ["photoUrls", "48px"] == ["aboutSectionViewModel", "aboutCeo", "photoUrls", "48px"];
    assert base + ["photoUrls", "96px"] == ["aboutSectionViewModel", "aboutCeo", "photoUrls", "96px"];
    assert base + ["photoUrls", "512px"] == ["aboutSectionViewModel", "aboutCeo", "photoUrls", "512px"];
    assert "photoUrls" !in ceo.fields;
    assert CeoOf(cd) == Ceo(JStr(""), JNull, JNull, JNull);
  }
}

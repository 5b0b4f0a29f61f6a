/** The resource-serving documentation server (`TrueNASDocServer`): it turns
    every documentation file into zero or more `truenas://` resources, lists
    them, reads them, and generates a categorised index of them. */
module ResourceServer {
  import opened Text
  import opened OrderedDicts
  import opened Markdown
  import opened DocLayout

  // ---------------------------------------------------------------------
  // The resources
  // ---------------------------------------------------------------------

  /** Which resource a cache entry is. The kind fixes the entry's URI, its
      display name and its description; only the text varies. */
  datatype ResourceKind =
    | MiddlewareOverview
    | Guidelines
    | ServiceTypes
    | PluginPatterns
    | PluginCategories
    | PluginDoc(plugin: string)
    | ApiVersioning
    | ApiModels
    | ApiBestPractices
    | ApiPatterns
    | TestingGuide
    | TestingPatterns
    | SubsystemDoc(subsystem: string)

  /** One cached resource: the `name`/`description`/`content` dictionary. */
  datatype Resource = Resource(kind: ResourceKind, content: string)

  type ResourceCache = OrderedDict<Resource>

  const IndexUri := "truenas://index"

  /** The key each kind of resource is cached under. */
  function Uri(k: ResourceKind): string {
    match k
    case MiddlewareOverview => "truenas://overview"
    case Guidelines => "truenas://development/guidelines"
    case ServiceTypes => "truenas://plugins/service-types"
    case PluginPatterns => "truenas://plugins/patterns"
    case PluginCategories => "truenas://plugins/categories"
    case PluginDoc(plugin) => "truenas://plugins/" + plugin
    case ApiVersioning => "truenas://api/versioning"
    case ApiModels => "truenas://api/models"
    case ApiBestPractices => "truenas://api/best-practices"
    case ApiPatterns => "truenas://api/patterns"
    case TestingGuide => "truenas://testing/overview"
    case TestingPatterns => "truenas://testing/patterns"
    case SubsystemDoc(subsystem) => "truenas://subsystems/" + subsystem
  }

  /** The `name` each kind of resource carries. */
  function DisplayName(k: ResourceKind): string {
    match k
    case MiddlewareOverview => "TrueNAS Middleware Overview"
    case Guidelines => "Development Guidelines"
    case ServiceTypes => "Service Types Reference"
    case PluginPatterns => "Plugin Development Patterns"
    case PluginCategories => "Plugin Categories"
    case PluginDoc(plugin) => Title(plugin) + " Plugin"
    case ApiVersioning => "API Versioning"
    case ApiModels => "API Model Patterns"
    case ApiBestPractices => "API Best Practices"
    case ApiPatterns => "API Common Patterns"
    case TestingGuide => "Testing Guide"
    case TestingPatterns => "Testing Patterns"
    case SubsystemDoc(subsystem) => Title(subsystem) + " Subsystem"
  }

  /** The `description` each kind of resource carries. */
  function Description(k: ResourceKind): string {
    match k
    case MiddlewareOverview => "High-level overview of the TrueNAS middleware architecture"
    case Guidelines => "Best practices for TrueNAS middleware development"
    case ServiceTypes => "Guide to different service base classes (Service, ConfigService, CRUDService, SystemServiceService)"
    case PluginPatterns => "Common patterns for implementing TrueNAS plugins"
    case PluginCategories => "Categorized list of all plugins and their purposes"
    case PluginDoc(plugin) => "Documentation for the " + plugin + " plugin"
    case ApiVersioning => "How API versioning works in TrueNAS middleware"
    case ApiModels => "How to define Pydantic models for API endpoints"
    case ApiBestPractices => "Best practices for API development in TrueNAS"
    case ApiPatterns => "Common patterns for API endpoints"
    case TestingGuide => "How to write and run integration tests for TrueNAS"
    case TestingPatterns => "Common patterns for writing TrueNAS tests"
    case SubsystemDoc(subsystem) => "Documentation for the " + subsystem + " subsystem"
  }

  /** The category of file whose `_create_*` method makes this kind. */
  function Origin(k: ResourceKind): Category {
    match k
    case MiddlewareOverview => Overview
    case Guidelines => Overview
    case ServiceTypes => PluginsOverview
    case PluginPatterns => PluginsOverview
    case PluginCategories => PluginsOverview
    case PluginDoc(plugin) => Plugin(plugin)
    case ApiVersioning => Api
    case ApiModels => Api
    case ApiBestPractices => Api
    case ApiPatterns => Api
    case TestingGuide => Testing
    case TestingPatterns => Testing
    case SubsystemDoc(subsystem) => Subsystem(subsystem)
  }

  /** No other kind is cached under the overview's URI. */
  lemma OverviewUriIsOverviewOnly(k: ResourceKind)
    ensures Uri(k) == Uri(MiddlewareOverview) <==> k == MiddlewareOverview
  {
    if k != MiddlewareOverview {
      assert Uri(k)[10] != Uri(MiddlewareOverview)[10];
    }
  }

  /** A plugin directory named `patterns` is cached under the same key as the
      plugin patterns reference, so whichever is written later replaces the
      other. */
  lemma PluginNamedPatternsSharesKey()
    ensures Uri(PluginDoc("patterns")) == Uri(PluginPatterns) && PluginDoc("patterns") != PluginPatterns
  {
  }

  /** The binding `self.resources_cache[uri] = {...}` makes. */
  function Binding(k: ResourceKind, content: string): (string, Resource) {
    (Uri(k), Resource(k, content))
  }

  /** The binding a `_create_*` method makes when its condition holds. */
  function When(condition: bool, k: ResourceKind, content: string): (r: seq<(string, Resource)>)
    ensures Made(r, Origin(k))
  {
    if condition then [Binding(k, content)] else []
  }

  /** A conditional binding holds its own key exactly when its condition
      holds, and no other key. */
  lemma WhenFind(condition: bool, k: ResourceKind, content: string)
    ensures forall key :: key != Uri(k) ==> Find(When(condition, k, content), key) == None
    ensures Find(When(condition, k, content), Uri(k)) == if condition then Some(Resource(k, content)) else None
  {
  }

  /** Every binding is keyed by its resource's URI, and every resource is of
      a kind a file of category c makes. */
  predicate Made(kvs: seq<(string, Resource)>, c: Category) {
    forall i :: 0 <= i < |kvs| ==> kvs[i].0 == Uri(kvs[i].1.kind) && Origin(kvs[i].1.kind) == c
  }

  lemma MadeAppend(a: seq<(string, Resource)>, b: seq<(string, Resource)>, c: Category)
    requires Made(a, c) && Made(b, c)
    ensures Made(a + b, c)
  {
    forall i | 0 <= i < |a + b| ensures (a + b)[i].0 == Uri((a + b)[i].1.kind) && Origin((a + b)[i].1.kind) == c {
      if i >= |a| {
        assert (a + b)[i] == b[i - |a|];
      }
    }
  }

  // ---------------------------------------------------------------------
  // What each kind of file creates
  // ---------------------------------------------------------------------

  /** The overview's text: the summary of "Purpose" and "Repository
      Structure". */
  function OverviewText(sections: map<string, string>): string {
    SummaryOf(Section(sections, "Purpose") + "\n\n" + Section(sections, "Repository Structure"), 50)
  }

  /** The versioning guide's text. */
  function VersioningText(sections: map<string, string>): string {
    Section(sections, "Overview") + "\n\n" + Section(sections, "Directory Structure") + "\n\n" +
    Section(sections, "Migration Between Versions")
  }

  /** The testing guide's text. */
  function TestingGuideText(sections: map<string, string>): string {
    Section(sections, "Overview") + "\n\n" + Section(sections, "Test Structure") + "\n\n" +
    Section(sections, "Writing Tests")
  }

  /** `_create_overview_resources` */
  function OverviewResources(content: string): (r: seq<(string, Resource)>)
    ensures Made(r, Overview)
  {
    var sections := SectionsOf(content);
    var overview := When(true, MiddlewareOverview, OverviewText(sections));
    var guidelines := When("Development Guidelines" in sections, Guidelines, Section(sections, "Development Guidelines"));
    MadeAppend(overview, guidelines, Overview);
    overview + guidelines
  }

  /** `_create_plugins_overview` */
  function PluginsOverviewResources(content: string): (r: seq<(string, Resource)>)
    ensures Made(r, PluginsOverview)
  {
    var sections := SectionsOf(content);
    var a := When("Service Types and Base Classes" in sections, ServiceTypes,
      Section(sections, "Service Types and Base Classes"));
    var b := When("Common Plugin Patterns" in sections, PluginPatterns, Section(sections, "Common Plugin Patterns"));
    var c := When("Key Plugins by Category" in sections, PluginCategories, Section(sections, "Key Plugins by Category"));
    MadeAppend(a, b, PluginsOverview);
    MadeAppend(a + b, c, PluginsOverview);
    a + b + c
  }

  /** `_create_plugin_resource` */
  function PluginResources(pluginName: string, content: string): (r: seq<(string, Resource)>)
    ensures Made(r, Plugin(pluginName))
  {
    When(true, PluginDoc(pluginName), PluginSummary(SectionsOf(content)))
  }

  /** `_create_api_resources` */
  function ApiResources(content: string): (r: seq<(string, Resource)>)
    ensures Made(r, Api)
  {
    var sections := SectionsOf(content);
    var a := When("Directory Structure" in sections || "Migration Between Versions" in sections,
      ApiVersioning, VersioningText(sections));
    var b := When("Key Concepts" in sections, ApiModels, Section(sections, "Key Concepts"));
    var c := When("Best Practices" in sections, ApiBestPractices, Section(sections, "Best Practices"));
    var d := When("Common Patterns" in sections, ApiPatterns, Section(sections, "Common Patterns"));
    MadeAppend(a, b, Api);
    MadeAppend(a + b, c, Api);
    MadeAppend(a + b + c, d, Api);
    a + b + c + d
  }

  /** `_create_testing_resources` */
  function TestingResources(content: string): (r: seq<(string, Resource)>)
    ensures Made(r, Testing)
  {
    var sections := SectionsOf(content);
    var guide := When(true, TestingGuide, TestingGuideText(sections));
    var patterns := When("Common Patterns" in sections, TestingPatterns, Section(sections, "Common Patterns"));
    MadeAppend(guide, patterns, Testing);
    guide + patterns
  }

  /** `_create_subsystem_resource` */
  function SubsystemResources(subsystem: string, content: string): (r: seq<(string, Resource)>)
    ensures Made(r, Subsystem(subsystem))
  {
    When(true, SubsystemDoc(subsystem), PluginSummary(SectionsOf(content)))
  }

  /** The overview always exists; the guidelines exist exactly when the
      document has that section, with its body verbatim. */
  lemma OverviewResourcesExist(content: string)
    ensures var sections := SectionsOf(content);
      Find(OverviewResources(content), Uri(MiddlewareOverview)) ==
        Some(Resource(MiddlewareOverview, OverviewText(sections)))
    ensures var sections := SectionsOf(content);
      Find(OverviewResources(content), Uri(Guidelines)) ==
        if "Development Guidelines" in sections then Some(Resource(Guidelines, sections["Development Guidelines"]))
        else None
  {
    var sections := SectionsOf(content);
    var overview := When(true, MiddlewareOverview, OverviewText(sections));
    var guidelines := When("Development Guidelines" in sections, Guidelines, Section(sections, "Development Guidelines"));
    assert OverviewResources(content) == overview + guidelines;
    assert Uri(MiddlewareOverview) != Uri(Guidelines) by { assert Uri(MiddlewareOverview)[10] != Uri(Guidelines)[10]; }
    WhenFind(true, MiddlewareOverview, OverviewText(sections));
    WhenFind("Development Guidelines" in sections, Guidelines, Section(sections, "Development Guidelines"));
    FindAppend(overview, guidelines, Uri(MiddlewareOverview));
    FindAppend(overview, guidelines, Uri(Guidelines));
  }

  /** Each plugin reference exists exactly when its section does, with the
      body verbatim. */
  lemma PluginsOverviewResourcesExist(content: string)
    ensures var sections := SectionsOf(content);
      Find(PluginsOverviewResources(content), Uri(ServiceTypes)) ==
        if "Service Types and Base Classes" in sections
        then Some(Resource(ServiceTypes, sections["Service Types and Base Classes"]))
        else None
    ensures var sections := SectionsOf(content);
      Find(PluginsOverviewResources(content), Uri(PluginPatterns)) ==
        if "Common Plugin Patterns" in sections then Some(Resource(PluginPatterns, sections["Common Plugin Patterns"]))
        else None
    ensures var sections := SectionsOf(content);
      Find(PluginsOverviewResources(content), Uri(PluginCategories)) ==
        if "Key Plugins by Category" in sections then Some(Resource(PluginCategories, sections["Key Plugins by Category"]))
        else None
  {
    var sections := SectionsOf(content);
    var a := When("Service Types and Base Classes" in sections, ServiceTypes,
      Section(sections, "Service Types and Base Classes"));
    var b := When("Common Plugin Patterns" in sections, PluginPatterns, Section(sections, "Common Plugin Patterns"));
    var c := When("Key Plugins by Category" in sections, PluginCategories, Section(sections, "Key Plugins by Category"));
    assert PluginsOverviewResources(content) == a + b + c;
    WhenFind("Service Types and Base Classes" in sections, ServiceTypes, Section(sections, "Service Types and Base Classes"));
    WhenFind("Common Plugin Patterns" in sections, PluginPatterns, Section(sections, "Common Plugin Patterns"));
    WhenFind("Key Plugins by Category" in sections, PluginCategories, Section(sections, "Key Plugins by Category"));
    PluginReferenceUrisDistinct();
    FindAllThree(a, b, c, Uri(ServiceTypes));
    FindAllThree(a, b, c, Uri(PluginPatterns));
    FindAllThree(a, b, c, Uri(PluginCategories));
  }

  /** The three plugin references have three different keys. */
  lemma PluginReferenceUrisDistinct()
    ensures Uri(ServiceTypes) != Uri(PluginPatterns) && Uri(ServiceTypes) != Uri(PluginCategories)
    ensures Uri(PluginPatterns) != Uri(PluginCategories)
  {
  }

  /** A lookup in three concatenated batches: the last batch holding the key
      decides. */
  lemma FindAllThree<V>(a: seq<(string, V)>, b: seq<(string, V)>, c: seq<(string, V)>, k: string)
    ensures Find(a + b + c, k) ==
      if Find(c, k).Some? then Find(c, k)
      else if Find(b, k).Some? then Find(b, k)
      else Find(a, k)
  {
    FindAppend(a + b, c, k);
    FindAppend(a, b, k);
  }

  /** A plugin file makes exactly its plugin's resource, holding the plugin
      summary of its sections. */
  lemma PluginResourcesExist(pluginName: string, content: string)
    ensures PluginResources(pluginName, content) ==
      [(Uri(PluginDoc(pluginName)), Resource(PluginDoc(pluginName), PluginSummary(SectionsOf(content))))]
  {
  }

  /** Versioning exists exactly when "Directory Structure" or "Migration
      Between Versions" does; each other API guide exactly when its own
      section does. */
  lemma ApiResourcesExist(content: string)
    ensures var sections := SectionsOf(content);
      Find(ApiResources(content), Uri(ApiVersioning)) ==
        if "Directory Structure" in sections || "Migration Between Versions" in sections
        then Some(Resource(ApiVersioning, VersioningText(sections)))
        else None
    ensures var sections := SectionsOf(content);
      Find(ApiResources(content), Uri(ApiModels)) ==
        if "Key Concepts" in sections then Some(Resource(ApiModels, sections["Key Concepts"])) else None
    ensures var sections := SectionsOf(content);
      Find(ApiResources(content), Uri(ApiBestPractices)) ==
        if "Best Practices" in sections then Some(Resource(ApiBestPractices, sections["Best Practices"])) else None
    ensures var sections := SectionsOf(content);
      Find(ApiResources(content), Uri(ApiPatterns)) ==
        if "Common Patterns" in sections then Some(Resource(ApiPatterns, sections["Common Patterns"])) else None
  {
    var sections := SectionsOf(content);
    var a := When("Directory Structure" in sections || "Migration Between Versions" in sections,
      ApiVersioning, VersioningText(sections));
    var b := When("Key Concepts" in sections, ApiModels, Section(sections, "Key Concepts"));
    var c := When("Best Practices" in sections, ApiBestPractices, Section(sections, "Best Practices"));
    var d := When("Common Patterns" in sections, ApiPatterns, Section(sections, "Common Patterns"));
    assert ApiResources(content) == a + b + c + d;
    ApiUrisDistinct();
    WhenFind("Directory Structure" in sections || "Migration Between Versions" in sections,
      ApiVersioning, VersioningText(sections));
    WhenFind("Key Concepts" in sections, ApiModels, Section(sections, "Key Concepts"));
    WhenFind("Best Practices" in sections, ApiBestPractices, Section(sections, "Best Practices"));
    WhenFind("Common Patterns" in sections, ApiPatterns, Section(sections, "Common Patterns"));
    FindAllFour(a, b, c, d, Uri(ApiVersioning));
    FindAllFour(a, b, c, d, Uri(ApiModels));
    FindAllFour(a, b, c, d, Uri(ApiBestPractices));
    FindAllFour(a, b, c, d, Uri(ApiPatterns));
  }

  /** The four API guides have four different keys. */
  lemma ApiUrisDistinct()
    ensures Uri(ApiVersioning) != Uri(ApiModels) && Uri(ApiVersioning) != Uri(ApiBestPractices)
    ensures Uri(ApiVersioning) != Uri(ApiPatterns) && Uri(ApiModels) != Uri(ApiBestPractices)
    ensures Uri(ApiModels) != Uri(ApiPatterns) && Uri(ApiBestPractices) != Uri(ApiPatterns)
  {
  }

  /** A lookup in four concatenated batches: the last batch holding the key
      decides. */
  lemma FindAllFour<V>(a: seq<(string, V)>, b: seq<(string, V)>, c: seq<(string, V)>, d: seq<(string, V)>, k: string)
    ensures Find(a + b + c + d, k) ==
      if Find(d, k).Some? then Find(d, k)
      else if Find(c, k).Some? then Find(c, k)
      else if Find(b, k).Some? then Find(b, k)
      else Find(a, k)
  {
    FindAppend(a + b + c, d, k);
    FindAppend(a + b, c, k);
    FindAppend(a, b, k);
  }

  /** The testing guide always exists; the patterns exactly when "Common
      Patterns" does. */
  lemma TestingResourcesExist(content: string)
    ensures var sections := SectionsOf(content);
      Find(TestingResources(content), Uri(TestingGuide)) == Some(Resource(TestingGuide, TestingGuideText(sections)))
    ensures var sections := SectionsOf(content);
      Find(TestingResources(content), Uri(TestingPatterns)) ==
        if "Common Patterns" in sections then Some(Resource(TestingPatterns, sections["Common Patterns"])) else None
  {
    var sections := SectionsOf(content);
    var guide := When(true, TestingGuide, TestingGuideText(sections));
    var patterns := When("Common Patterns" in sections, TestingPatterns, Section(sections, "Common Patterns"));
    assert TestingResources(content) == guide + patterns;
    WhenFind(true, TestingGuide, TestingGuideText(sections));
    WhenFind("Common Patterns" in sections, TestingPatterns, Section(sections, "Common Patterns"));
    assert Uri(TestingGuide) != Uri(TestingPatterns) by { assert Uri(TestingGuide)[18] != Uri(TestingPatterns)[18]; }
    FindAppend(guide, patterns, Uri(TestingGuide));
    FindAppend(guide, patterns, Uri(TestingPatterns));
  }

  /** A subsystem file makes exactly its subsystem's resource. */
  lemma SubsystemResourcesExist(subsystem: string, content: string)
    ensures SubsystemResources(subsystem, content) ==
      [(Uri(SubsystemDoc(subsystem)), Resource(SubsystemDoc(subsystem), PluginSummary(SectionsOf(content))))]
  {
  }

  /** The resources a file of category c with the given text creates. */
  function ResourcesFor(c: Category, content: string): (r: seq<(string, Resource)>)
    ensures Made(r, c)
  {
    match c
    case Overview => OverviewResources(content)
    case PluginsOverview => PluginsOverviewResources(content)
    case Plugin(name) => PluginResources(name, content)
    case Api => ApiResources(content)
    case Testing => TestingResources(content)
    case Subsystem(name) => SubsystemResources(name, content)
  }

  /** The resources one file creates, by the category of its place. */
  function FileResources(f: DocFile): (r: seq<(string, Resource)>)
    ensures Made(r, Categorize(f.dirs))
  {
    ResourcesFor(Categorize(f.dirs), f.content)
  }

  /** The batch of resources each file creates, in file order. */
  function FileBatches(files: seq<DocFile>): (r: seq<seq<(string, Resource)>>)
    ensures |r| == |files| && forall i :: 0 <= i < |files| ==> r[i] == FileResources(files[i])
  {
    seq(|files|, i requires 0 <= i < |files| => FileResources(files[i]))
  }

  /** The resources the files create, in the order they are created. */
  function AllResources(files: seq<DocFile>): seq<(string, Resource)> {
    Concat(FileBatches(files))
  }

  // ---------------------------------------------------------------------
  // Plugin and subsystem summaries
  // ---------------------------------------------------------------------

  const ConceptSections: seq<string> := ["Architecture", "Core Concepts", "Key Concepts"]
  const OperationSections: seq<string> := ["Core Components", "Key Methods", "Operations", "Main Operations"]

  /** The index of the first name present among the sections, or |names|. */
  function FirstPresent(sections: map<string, string>, names: seq<string>): (i: nat)
    ensures i <= |names|
    ensures i < |names| ==> names[i] in sections
    ensures forall k :: 0 <= k < i ==> names[k] !in sections
    decreases |names|
  {
    if names == [] then 0
    else if names[0] in sections then 0
    else 1 + FirstPresent(sections, names[1..])
  }

  /** The part for the first section present among names, summarised to
      maxLines lines. */
  function FirstPresentPart(sections: map<string, string>, names: seq<string>, maxLines: nat): seq<string> {
    var i := FirstPresent(sections, names);
    if i < |names| then ["## " + names[i] + "\n" + SummaryOf(sections[names[i]], maxLines)] else []
  }

  /** The parts of `_create_plugin_summary`. */
  function SummaryParts(sections: map<string, string>): (r: seq<string>)
    ensures |r| <= 3
    ensures r == [] <==>
      "Overview" !in sections &&
      (forall k :: 0 <= k < |ConceptSections| ==> ConceptSections[k] !in sections) &&
      (forall k :: 0 <= k < |OperationSections| ==> OperationSections[k] !in sections)
    ensures "Overview" in sections ==> r[0] == "## Overview\n" + sections["Overview"]
    ensures var o := if "Overview" in sections then 1 else 0;
      var c := FirstPresent(sections, ConceptSections);
      var p := FirstPresent(sections, OperationSections);
      |r| == o + (if c < |ConceptSections| then 1 else 0) + (if p < |OperationSections| then 1 else 0) &&
      (c < |ConceptSections| ==>
         r[o] == "## " + ConceptSections[c] + "\n" + SummaryOf(sections[ConceptSections[c]], 30)) &&
      (p < |OperationSections| ==>
         r[|r| - 1] == "## " + OperationSections[p] + "\n" + SummaryOf(sections[OperationSections[p]], 40))
  {
    (if "Overview" in sections then ["## Overview\n" + sections["Overview"]] else [])
    + FirstPresentPart(sections, ConceptSections, 30)
    + FirstPresentPart(sections, OperationSections, 40)
  }

  /** The summary a plugin or subsystem resource carries. */
  function PluginSummary(sections: map<string, string>): string {
    Join("\n\n", SummaryParts(sections))
  }

  /** One `for key in [...]: if key in sections: ...; break` loop of
      `_create_plugin_summary`. */
  method FirstSectionPart(sections: map<string, string>, names: seq<string>, maxLines: nat) returns (part: seq<string>)
    ensures part == FirstPresentPart(sections, names, maxLines)
  {
    part := [];
    var i := 0;
    while i < |names|
      invariant 0 <= i <= |names|
      invariant forall k :: 0 <= k < i ==> names[k] !in sections
    {
      var key := names[i];
      if key in sections {
        var body := Summarize(sections[key], maxLines);
        assert FirstPresent(sections, names) == i;
        part := ["## " + key + "\n" + body];
        return;
      }
      i := i + 1;
    }
  }

  /** `_create_plugin_summary` (the plugin name it takes is not used). */
  method CreatePluginSummary(pluginName: string, sections: map<string, string>) returns (summary: string)
    ensures summary == PluginSummary(sections)
  {
    var summaryParts: seq<string> := [];
    if "Overview" in sections {
      summaryParts := summaryParts + ["## Overview\n" + sections["Overview"]];
    }
    var concepts := FirstSectionPart(sections, ConceptSections, 30);
    summaryParts := summaryParts + concepts;
    var operations := FirstSectionPart(sections, OperationSections, 40);
    summaryParts := summaryParts + operations;
    assert summaryParts == SummaryParts(sections);
    summary := Join("\n\n", summaryParts);
  }

  /** `_create_subsystem_summary`: the plugin summary of the same sections. */
  method CreateSubsystemSummary(subsystem: string, sections: map<string, string>) returns (summary: string)
    ensures summary == PluginSummary(sections)
  {
    summary := CreatePluginSummary(subsystem, sections);
  }

  // ---------------------------------------------------------------------
  // Listing, reading and the index
  // ---------------------------------------------------------------------

  /** One entry of `handle_list_resources`. */
  datatype ResourceInfo = ResourceInfo(uri: string, name: string, description: string, mimeType: string)

  const IndexInfo := ResourceInfo(
    IndexUri, "TrueNAS Documentation Index", "Index of all available TrueNAS middleware documentation", "text/plain")

  function Info(uri: string, r: Resource): ResourceInfo {
    ResourceInfo(uri, DisplayName(r.kind), Description(r.kind), "text/plain")
  }

  /** The listing: the index first, then every cached resource in cache order. */
  function ListResources(cache: ResourceCache): (r: seq<ResourceInfo>)
    requires Valid(cache)
    ensures |r| == 1 + |cache.keys| == 1 + |cache.entries|
    ensures r[0] == IndexInfo
  {
    SizeMatchesOrder(cache);
    [IndexInfo] + seq(|cache.keys|, i requires 0 <= i < |cache.keys| => Info(cache.keys[i], cache.entries[cache.keys[i]]))
  }

  /** Entry i + 1 of the listing describes the i-th cached resource. */
  lemma ListedAt(cache: ResourceCache, i: nat)
    requires Valid(cache) && i < |cache.keys|
    ensures cache.keys[i] in cache.entries
    ensures ListResources(cache)[1 + i] == Info(cache.keys[i], cache.entries[cache.keys[i]])
  {
  }

  /** The listing grows by one cached resource at a time. */
  lemma ListingStep(cache: ResourceCache, i: nat)
    requires Valid(cache) && i < |cache.keys|
    ensures cache.keys[i] in cache.entries
    ensures ListResources(cache)[..2 + i] == ListResources(cache)[..1 + i] + [Info(cache.keys[i], cache.entries[cache.keys[i]])]
  {
    ListedAt(cache, i);
    PrefixGrows(ListResources(cache), 1 + i);
  }

  /** Taking one more element of a sequence appends that element. */
  lemma PrefixGrows<T>(s: seq<T>, n: nat)
    requires n < |s|
    ensures s[..n + 1] == s[..n] + [s[n]]
  {
  }

  /** The outcome of a read: the resource's text, or the `ValueError` raised. */
  datatype ReadResult = Text(text: string) | Raised(message: string)

  /** `handle_read_resource` */
  function ReadResource(cache: ResourceCache, uri: string): (r: ReadResult)
    ensures uri == IndexUri ==> r == Text(IndexText(cache))
    ensures uri != IndexUri ==> (r.Text? <==> uri in cache.entries)
    ensures uri != IndexUri && uri in cache.entries ==> r.text == cache.entries[uri].content
    ensures r.Raised? ==> r.message == "Resource not found: " + uri
  {
    if uri == IndexUri then Text(IndexText(cache))
    else if uri in cache.entries then Text(cache.entries[uri].content)
    else Raised("Resource not found: " + uri)
  }

  /** Every resource the listing names can be read. */
  lemma ListedResourcesReadable(cache: ResourceCache, i: nat)
    requires Valid(cache) && i < |ListResources(cache)|
    ensures ReadResource(cache, ListResources(cache)[i].uri).Text?
  {
  }

  const IndexKeywords: seq<string> := ["overview", "development", "plugins", "api", "testing", "subsystems"]
  const IndexCategories: seq<string> := ["Overview", "Development", "Plugins", "API", "Testing", "Subsystems"]

  /** The first keyword at or after k that occurs in the URI, or 6 for none. */
  function FirstKeyword(uri: string, k: nat): (c: nat)
    requires k <= |IndexKeywords|
    ensures k <= c <= |IndexKeywords|
    ensures c < |IndexKeywords| ==> IsSubstring(IndexKeywords[c], uri)
    ensures forall j :: k <= j < c ==> !IsSubstring(IndexKeywords[j], uri)
    decreases |IndexKeywords| - k
  {
    if k == |IndexKeywords| || IsSubstring(IndexKeywords[k], uri) then k else FirstKeyword(uri, k + 1)
  }

  /** The index category of a URI: the first keyword found in it. */
  function IndexCategory(uri: string): (c: nat)
    ensures c <= |IndexKeywords|
    ensures c < |IndexKeywords| ==> IsSubstring(IndexKeywords[c], uri)
    ensures forall j :: 0 <= j < c ==> !IsSubstring(IndexKeywords[j], uri)
  {
    FirstKeyword(uri, 0)
  }

  /** Because "overview" is checked first, the testing guide is listed under
      Overview rather than Testing. */
  lemma TestingGuideListedUnderOverview()
    ensures IndexCategory(Uri(TestingGuide)) == 0
  {
    var uri := Uri(TestingGuide);
    assert uri[18..26] == "overview";
    SubstringAt("overview", uri, 18);
  }

  /** `- **<name>** (`<uri>`): <description>` */
  function IndexEntry(uri: string, r: Resource): string {
    "- **" + DisplayName(r.kind) + "** (`" + uri + "`): " + Description(r.kind)
  }

  /** The cached URIs among uris whose index category is c, in order. */
  function CategoryUris(cache: ResourceCache, uris: seq<string>, c: nat): (r: seq<string>)
    ensures forall j :: 0 <= j < |r| ==> r[j] in cache.entries
    decreases |uris|
  {
    if uris == [] then []
    else
      var init := CategoryUris(cache, uris[..|uris| - 1], c);
      var uri := uris[|uris| - 1];
      if uri in cache.entries && IndexCategory(uri) == c then init + [uri] else init
  }

  /** A category holds exactly the cached URIs it is the first match for. */
  lemma {:induction false} CategoryUrisExact(cache: ResourceCache, uris: seq<string>, c: nat, u: string)
    ensures u in CategoryUris(cache, uris, c) <==> u in uris && u in cache.entries && IndexCategory(u) == c
    decreases |uris|
  {
    if uris != [] {
      var n := |uris| - 1;
      CategoryUrisExact(cache, uris[..n], c, u);
      assert uris == uris[..n] + [uris[n]];
    }
  }

  /** Taken from sorted URIs, a category's URIs stay sorted. */
  lemma {:induction false} CategoryUrisSorted(cache: ResourceCache, uris: seq<string>, c: nat)
    requires SortedStrings(uris)
    ensures SortedStrings(CategoryUris(cache, uris, c))
    decreases |uris|
  {
    if uris != [] {
      var n := |uris| - 1;
      var init := CategoryUris(cache, uris[..n], c);
      CategoryUrisSorted(cache, uris[..n], c);
      var r := CategoryUris(cache, uris, c);
      if r != init {
        forall i | 0 <= i < |init|
          ensures StrLe(init[i], uris[n])
        {
          CategoryUrisExact(cache, uris[..n], c, init[i]);
          var k :| 0 <= k < n && uris[..n][k] == init[i];
          assert uris[k] == init[i];
        }
        assert r == init + [uris[n]];
      }
    }
  }

  /** The entries of category c for the URIs, in URI order. */
  function Bucket(cache: ResourceCache, uris: seq<string>, c: nat): seq<string> {
    var us := CategoryUris(cache, uris, c);
    seq(|us|, j requires 0 <= j < |us| => IndexEntry(us[j], cache.entries[us[j]]))
  }

  /** Taking one more URI adds its entry to its own category only. */
  lemma BucketStep(cache: ResourceCache, uris: seq<string>, i: nat, c: nat)
    requires i < |uris|
    ensures Bucket(cache, uris[..i + 1], c) == Bucket(cache, uris[..i], c) +
      (if uris[i] in cache.entries && IndexCategory(uris[i]) == c
       then [IndexEntry(uris[i], cache.entries[uris[i]])] else [])
  {
    assert uris[..i + 1][..i] == uris[..i];
  }

  /** A category lists exactly the entries of the cached URIs it is the first
      match for. */
  lemma BucketExact(cache: ResourceCache, uris: seq<string>, c: nat, x: string)
    ensures x in Bucket(cache, uris, c) <==>
      exists u :: u in uris && u in cache.entries && IndexCategory(u) == c && x == IndexEntry(u, cache.entries[u])
  {
    var us := CategoryUris(cache, uris, c);
    var b := Bucket(cache, uris, c);
    if x in b {
      var j :| 0 <= j < |b| && b[j] == x;
      CategoryUrisExact(cache, uris, c, us[j]);
    }
    if exists u :: u in uris && u in cache.entries && IndexCategory(u) == c && x == IndexEntry(u, cache.entries[u]) {
      var u :| u in uris && u in cache.entries && IndexCategory(u) == c && x == IndexEntry(u, cache.entries[u]);
      CategoryUrisExact(cache, uris, c, u);
      var j :| 0 <= j < |us| && us[j] == u;
      assert b[j] == x;
    }
  }

  /** The six categories' entries, the URIs taken in sorted order. */
  function Buckets(cache: ResourceCache): (b: seq<seq<string>>)
    ensures |b| == |IndexCategories|
  {
    var uris := SortStrings(cache.keys);
    seq(|IndexCategories|, c requires 0 <= c < |IndexCategories| => Bucket(cache, uris, c))
  }

  /** The heading and entries of each non-empty category among the first n. */
  function CategoryBlocks(buckets: seq<seq<string>>, n: nat): seq<string>
    requires n <= |buckets| && n <= |IndexCategories|
    decreases n
  {
    if n == 0 then []
    else
      CategoryBlocks(buckets, n - 1) +
      (if buckets[n - 1] != [] then ["\n### " + IndexCategories[n - 1] + "\n"] + buckets[n - 1] else [])
  }

  lemma {:induction false} CategoryBlocksContain(buckets: seq<seq<string>>, n: nat, c: nat, x: string)
    requires n <= |buckets| && n <= |IndexCategories| && c < n && x in buckets[c]
    ensures x in CategoryBlocks(buckets, n)
    decreases n
  {
    if c < n - 1 {
      CategoryBlocksContain(buckets, n - 1, c, x);
    }
  }

  /** One more category adds its heading and entries when it has any. */
  lemma CategoryBlocksStep(buckets: seq<seq<string>>, k: nat)
    requires k < |buckets| && k < |IndexCategories|
    ensures buckets[k] != [] ==>
      (IndexHeader + CategoryBlocks(buckets, k + 1) ==
       IndexHeader + CategoryBlocks(buckets, k) + ["\n### " + IndexCategories[k] + "\n"] + buckets[k])
    ensures buckets[k] == [] ==> IndexHeader + CategoryBlocks(buckets, k + 1) == IndexHeader + CategoryBlocks(buckets, k)
  {
  }

  const IndexHeader: seq<string> := [
    "# TrueNAS Middleware Documentation Index\n",
    "This MCP server provides documentation resources for the TrueNAS middleware codebase.\n",
    "## Available Resources\n"]

  function IndexLines(cache: ResourceCache): seq<string> {
    IndexHeader + CategoryBlocks(Buckets(cache), |IndexCategories|)
  }

  /** `_generate_index` */
  function IndexText(cache: ResourceCache): string {
    Join("\n", IndexLines(cache))
  }

  /** Every cached resource whose URI holds one of the keywords appears in
      the index, under the category of the first keyword it holds. */
  lemma IndexListsResource(cache: ResourceCache, uri: string)
    requires Valid(cache) && uri in cache.entries && IndexCategory(uri) < |IndexKeywords|
    ensures IndexEntry(uri, cache.entries[uri]) in Buckets(cache)[IndexCategory(uri)]
    ensures IsSubstring(IndexEntry(uri, cache.entries[uri]), IndexText(cache))
  {
    var uris := SortStrings(cache.keys);
    var c := IndexCategory(uri);
    var x := IndexEntry(uri, cache.entries[uri]);
    assert uri in multiset(uris);
    BucketExact(cache, uris, c, x);
    CategoryBlocksContain(Buckets(cache), |IndexCategories|, c, x);
    var lines := IndexLines(cache);
    assert x in lines;
    var j :| 0 <= j < |lines| && lines[j] == x;
    JoinedPieceIsSubstring("\n", lines, j);
  }

  /** Within each category the entries follow the sorted URIs: entry j is
      the entry of the j-th URI of the category, and those URIs are sorted. */
  lemma IndexCategorySorted(cache: ResourceCache, c: nat)
    requires c < |IndexCategories|
    ensures var us := CategoryUris(cache, SortStrings(cache.keys), c);
      SortedStrings(us) && |Buckets(cache)[c]| == |us| &&
      forall j :: 0 <= j < |us| ==> Buckets(cache)[c][j] == IndexEntry(us[j], cache.entries[us[j]])
  {
    CategoryUrisSorted(cache, SortStrings(cache.keys), c);
  }

  /** An index entry always names a cached resource of its category. */
  lemma IndexEntryIsResource(cache: ResourceCache, c: nat, x: string)
    requires c < |IndexCategories| && x in Buckets(cache)[c]
    ensures exists uri :: uri in cache.entries && IndexCategory(uri) == c && x == IndexEntry(uri, cache.entries[uri])
  {
    BucketExact(cache, SortStrings(cache.keys), c, x);
  }

  // ---------------------------------------------------------------------
  // The server object
  // ---------------------------------------------------------------------

  class DocServer {
    var resourcesCache: ResourceCache

    /** `__init__`: files are the documentation files in sorted order. */
    constructor (files: seq<DocFile>)
      ensures Valid(resourcesCache)
      ensures resourcesCache == PutAll(Empty(), AllResources(files))
    {
      resourcesCache := Empty();
      new;
      ProcessDocumentation(files);
    }

    /** `_process_documentation` */
    method ProcessDocumentation(files: seq<DocFile>)
      requires Valid(resourcesCache)
      modifies this
      ensures Valid(resourcesCache)
      ensures resourcesCache == PutAll(old(resourcesCache), AllResources(files))
    {
      ghost var start := resourcesCache;
      var i := 0;
      while i < |files|
        invariant 0 <= i <= |files|
        invariant resourcesCache == PutAll(start, AllResources(files[..i]))
      {
        ghost var done := AllResources(files[..i]);
        FileDocument(files[i]);
        assert FileBatches(files[..i + 1])[..i] == FileBatches(files[..i]);
        assert AllResources(files[..i + 1]) == done + FileResources(files[i]);
        PutAllAppend(start, done, FileResources(files[i]));
        i := i + 1;
      }
      assert files[..i] == files;
      PutAllValid(start, AllResources(files));
    }

    /** The body of the `_process_documentation` loop. */
    method FileDocument(file: DocFile)
      modifies this
      ensures resourcesCache == PutAll(old(resourcesCache), FileResources(file))
    {
      var dirs := file.dirs;
      var content := file.content;
      ghost var c := Categorize(dirs);
      if dirs == [] {
        assert c == Overview;
        CreateOverviewResources(content);
      } else if IsSubstring("plugins", PathString(dirs)) {
        var pluginName := dirs[|dirs| - 1];
        if pluginName == "plugins" {
          assert c == PluginsOverview;
          CreatePluginsOverview(content);
        } else {
          assert c == Plugin(pluginName);
          CreatePluginResource(pluginName, content);
        }
      } else if IsSubstring("api", PathString(dirs)) {
        assert c == Api;
        CreateApiResources(content);
      } else if IsSubstring("tests", PathString(dirs)) {
        assert c == Testing;
        CreateTestingResources(content);
      } else {
        assert c == Subsystem(ParentName(dirs));
        CreateSubsystemResource(dirs, content);
      }
    }

    /** `self.resources_cache[uri] = {...}` when the condition holds, recorded
        against the bindings made so far. */
    method StoreWhen(condition: bool, k: ResourceKind, content: string,
                     ghost start: ResourceCache, ghost added: seq<(string, Resource)>)
      requires resourcesCache == PutAll(start, added)
      modifies this
      ensures resourcesCache == PutAll(start, added + When(condition, k, content))
    {
      if condition {
        resourcesCache := Put(resourcesCache, Uri(k), Resource(k, content));
        PutAllOne(start, added, Uri(k), Resource(k, content));
      } else {
        assert added + When(condition, k, content) == added;
      }
    }

    /** `_create_overview_resources` */
    method CreateOverviewResources(content: string)
      modifies this
      ensures resourcesCache == PutAll(old(resourcesCache), OverviewResources(content))
    {
      var sections := ExtractSections(content);
      var summary := Summarize(Section(sections, "Purpose") + "\n\n" + Section(sections, "Repository Structure"), 50);
      StoreWhen(true, MiddlewareOverview, summary, resourcesCache, []);
      StoreWhen("Development Guidelines" in sections, Guidelines, Section(sections, "Development Guidelines"),
        old(resourcesCache), When(true, MiddlewareOverview, summary));
    }

    /** `_create_plugins_overview` */
    method CreatePluginsOverview(content: string)
      modifies this
      ensures resourcesCache == PutAll(old(resourcesCache), PluginsOverviewResources(content))
    {
      ghost var start := resourcesCache;
      var sections := ExtractSections(content);
      ghost var a := When("Service Types and Base Classes" in sections, ServiceTypes,
        Section(sections, "Service Types and Base Classes"));
      ghost var b := When("Common Plugin Patterns" in sections, PluginPatterns, Section(sections, "Common Plugin Patterns"));
      StoreWhen("Service Types and Base Classes" in sections, ServiceTypes,
        Section(sections, "Service Types and Base Classes"), start, []);
      StoreWhen("Common Plugin Patterns" in sections, PluginPatterns,
        Section(sections, "Common Plugin Patterns"), start, [] + a);
      StoreWhen("Key Plugins by Category" in sections, PluginCategories,
        Section(sections, "Key Plugins by Category"), start, [] + a + b);
      assert [] + a == a;
    }

    /** `_create_plugin_resource` (its path argument is unused by the source). */
    method CreatePluginResource(pluginName: string, content: string)
      modifies this
      ensures resourcesCache == PutAll(old(resourcesCache), PluginResources(pluginName, content))
    {
      var sections := ExtractSections(content);
      var summary := CreatePluginSummary(pluginName, sections);
      StoreWhen(true, PluginDoc(pluginName), summary, resourcesCache, []);
    }

    /** `_create_api_resources` */
    method CreateApiResources(content: string)
      modifies this
      ensures resourcesCache == PutAll(old(resourcesCache), ApiResources(content))
    {
      ghost var start := resourcesCache;
      var sections := ExtractSections(content);
      ghost var a := When("Directory Structure" in sections || "Migration Between Versions" in sections,
        ApiVersioning, VersioningText(sections));
      ghost var b := When("Key Concepts" in sections, ApiModels, Section(sections, "Key Concepts"));
      ghost var c := When("Best Practices" in sections, ApiBestPractices, Section(sections, "Best Practices"));
      var versioning := Section(sections, "Overview") + "\n\n" + Section(sections, "Directory Structure") + "\n\n" +
        Section(sections, "Migration Between Versions");
      StoreWhen("Directory Structure" in sections || "Migration Between Versions" in sections,
        ApiVersioning, versioning, start, []);
      assert [] + a == a;
      StoreWhen("Key Concepts" in sections, ApiModels, Section(sections, "Key Concepts"), start, a);
      StoreWhen("Best Practices" in sections, ApiBestPractices, Section(sections, "Best Practices"), start, a + b);
      StoreWhen("Common Patterns" in sections, ApiPatterns, Section(sections, "Common Patterns"), start, a + b + c);
    }

    /** `_create_testing_resources` */
    method CreateTestingResources(content: string)
      modifies this
      ensures resourcesCache == PutAll(old(resourcesCache), TestingResources(content))
    {
      ghost var start := resourcesCache;
      var sections := ExtractSections(content);
      var guide := Section(sections, "Overview") + "\n\n" + Section(sections, "Test Structure") + "\n\n" +
        Section(sections, "Writing Tests");
      StoreWhen(true, TestingGuide, guide, start, []);
      StoreWhen("Common Patterns" in sections, TestingPatterns, Section(sections, "Common Patterns"),
        start, When(true, TestingGuide, guide));
    }

    /** `_create_subsystem_resource`: the subsystem is named by the file's
        directory. */
    method CreateSubsystemResource(dirs: seq<string>, content: string)
      requires dirs != []
      modifies this
      ensures resourcesCache == PutAll(old(resourcesCache), SubsystemResources(ParentName(dirs), content))
    {
      var subsystem := dirs[|dirs| - 1];
      var sections := ExtractSections(content);
      var summary := CreateSubsystemSummary(subsystem, sections);
      StoreWhen(true, SubsystemDoc(subsystem), summary, resourcesCache, []);
    }

    /** `handle_list_resources` */
    method HandleListResources() returns (resources: seq<ResourceInfo>)
      requires Valid(resourcesCache)
      ensures resources == ListResources(resourcesCache)
    {
      var cache := resourcesCache;
      resources := [IndexInfo];
      var i := 0;
      while i < |cache.keys|
        invariant 0 <= i <= |cache.keys|
        invariant |resources| == 1 + i
        invariant resources == ListResources(cache)[..1 + i]
      {
        var uri := cache.keys[i];
        var data := cache.entries[uri];
        ListingStep(cache, i);
        resources := resources + [Info(uri, data)];
        i := i + 1;
      }
      SizeMatchesOrder(cache);
    }

    /** `handle_read_resource` */
    method HandleReadResource(uri: string) returns (r: ReadResult)
      requires Valid(resourcesCache)
      ensures r == ReadResource(resourcesCache, uri)
    {
      if uri == IndexUri {
        var index := GenerateIndex();
        return Text(index);
      }
      if uri in resourcesCache.entries {
        return Text(resourcesCache.entries[uri].content);
      }
      return Raised("Resource not found: " + uri);
    }

    /** `_generate_index` */
    method GenerateIndex() returns (text: string)
      requires Valid(resourcesCache)
      ensures text == IndexText(resourcesCache)
    {
      var cache := resourcesCache;
      var categories := GroupEntries(cache);
      var indexLines := IndexHeader;
      var k := 0;
      while k < |IndexCategories|
        invariant 0 <= k <= |IndexCategories|
        invariant indexLines == IndexHeader + CategoryBlocks(categories, k)
      {
        CategoryBlocksStep(categories, k);
        if categories[k] != [] {
          indexLines := indexLines + ["\n### " + IndexCategories[k] + "\n"] + categories[k];
        }
        k := k + 1;
      }
      text := Join("\n", indexLines);
    }
  }

  /** The grouping loop of `_generate_index`: each cached URI, in sorted
      order, goes to the first category whose keyword it holds. */
  method GroupEntries(cache: ResourceCache) returns (categories: seq<seq<string>>)
    requires Valid(cache)
    ensures categories == Buckets(cache)
  {
    categories := [[], [], [], [], [], []];
    var uris := SortStrings(cache.keys);
    NoUrisNoEntries(cache, uris);
    var i := 0;
    while i < |uris|
      invariant 0 <= i <= |uris|
      invariant |categories| == |IndexCategories|
      invariant forall c :: 0 <= c < |IndexCategories| ==> categories[c] == Bucket(cache, uris[..i], c)
    {
      categories := GroupOne(cache, uris, i, categories);
      i := i + 1;
    }
    assert uris[..i] == uris;
    BucketsAre(cache, categories);
  }

  /** Each of the sorted keys is cached. */
  lemma SortedKeyCached(cache: ResourceCache, i: nat)
    requires Valid(cache) && i < |SortStrings(cache.keys)|
    ensures SortStrings(cache.keys)[i] in cache.entries
  {
    var uris := SortStrings(cache.keys);
    assert uris[i] in multiset(uris);
  }

  /** The body of the grouping loop: the i-th sorted URI's entry goes to the
      first category whose keyword its URI holds, if any. */
  method GroupOne(cache: ResourceCache, uris: seq<string>, i: nat, categories: seq<seq<string>>)
    returns (after: seq<seq<string>>)
    requires Valid(cache) && uris == SortStrings(cache.keys) && i < |uris|
    requires |categories| == |IndexCategories|
    requires forall d :: 0 <= d < |IndexCategories| ==> categories[d] == Bucket(cache, uris[..i], d)
    ensures |after| == |IndexCategories|
    ensures forall d :: 0 <= d < |IndexCategories| ==> after[d] == Bucket(cache, uris[..i + 1], d)
  {
    var uri := uris[i];
    SortedKeyCached(cache, i);
    var entry := IndexEntry(uri, cache.entries[uri]);
    var c := IndexCategory(uri);
    after := categories;
    if c < |IndexCategories| {
      after := categories[c := categories[c] + [entry]];
    }
    GroupStep(cache, uris, i, categories, after);
  }

  /** Before any URI is taken every category is empty. */
  lemma NoUrisNoEntries(cache: ResourceCache, uris: seq<string>)
    ensures forall c :: 0 <= c < |IndexCategories| ==> [[], [], [], [], [], []][c] == Bucket(cache, uris[..0], c)
  {
    assert uris[..0] == [];
  }

  /** Six categories each equal to their bucket of all the sorted URIs are
      the buckets. */
  lemma BucketsAre(cache: ResourceCache, categories: seq<seq<string>>)
    requires |categories| == |IndexCategories|
    requires forall d :: 0 <= d < |IndexCategories| ==> categories[d] == Bucket(cache, SortStrings(cache.keys), d)
    ensures categories == Buckets(cache)
  {
  }

  /** One turn of the grouping loop keeps every category equal to its bucket
      of the URIs seen so far. */
  lemma GroupStep(cache: ResourceCache, uris: seq<string>, i: nat, before: seq<seq<string>>, after: seq<seq<string>>)
    requires i < |uris| && uris[i] in cache.entries && |before| == |IndexCategories|
    requires forall d :: 0 <= d < |IndexCategories| ==> before[d] == Bucket(cache, uris[..i], d)
    requires var c := IndexCategory(uris[i]);
      after == if c < |IndexCategories| then before[c := before[c] + [IndexEntry(uris[i], cache.entries[uris[i]])]]
               else before
    ensures |after| == |IndexCategories|
    ensures forall d :: 0 <= d < |IndexCategories| ==> after[d] == Bucket(cache, uris[..i + 1], d)
  {
    forall d | 0 <= d < |IndexCategories| ensures after[d] == Bucket(cache, uris[..i + 1], d) {
      BucketStep(cache, uris, i, d);
    }
  }

  // ---------------------------------------------------------------------
  // What the processed files leave in the cache
  // ---------------------------------------------------------------------

  /** A URI is cached after processing exactly when some file creates it. */
  lemma CachedIffCreated(files: seq<DocFile>, uri: string)
    ensures uri in PutAll(Empty(), AllResources(files)).entries <==>
      exists i :: 0 <= i < |files| && Find(FileResources(files[i]), uri).Some?
  {
    PutAllConcat(FileBatches(files), uri);
  }

  /** Without documentation files the cache is empty and the listing holds
      the index alone. */
  lemma NoFilesOnlyIndex()
    ensures PutAll(Empty<Resource>(), AllResources([])) == Empty()
    ensures ListResources(PutAll(Empty<Resource>(), AllResources([]))) == [IndexInfo]
  {
    assert AllResources([]) == [];
  }

  /** Only a file at the root creates the overview resource. */
  lemma OverviewOnlyFromRoot(f: DocFile)
    ensures Find(FileResources(f), Uri(MiddlewareOverview)).Some? <==> f.dirs == []
  {
    var r := FileResources(f);
    if f.dirs == [] {
      OverviewResourcesExist(f.content);
    } else if Find(r, Uri(MiddlewareOverview)).Some? {
      var j :| 0 <= j < |r| && r[j].0 == Uri(MiddlewareOverview);
      OverviewUriIsOverviewOnly(r[j].1.kind);
      assert false;
    }
  }

  /** `truenas://overview` exists after processing exactly when there is a
      documentation file at the root. */
  lemma OverviewIffRootFile(files: seq<DocFile>)
    ensures Uri(MiddlewareOverview) in PutAll(Empty(), AllResources(files)).entries <==>
      exists i :: 0 <= i < |files| && files[i].dirs == []
  {
    CachedIffCreated(files, Uri(MiddlewareOverview));
    forall i | 0 <= i < |files|
      ensures Find(FileResources(files[i]), Uri(MiddlewareOverview)).Some? <==> files[i].dirs == []
    {
      OverviewOnlyFromRoot(files[i]);
    }
  }
}

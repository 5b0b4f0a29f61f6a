/** The tool-serving documentation server (`TrueNASDocToolsServer`): it files
    every documentation file into a cache keyed `overview`, `plugins_overview`,
    `plugin_<name>`, `api`, `testing` or `subsystem_<name>`, and answers tool
    calls from that cache. */
module ToolsServer {
  import opened Text
  import opened OrderedDicts
  import opened Markdown
  import opened DocLayout

  /** One cache value: the text served for the entry and its section map. */
  datatype CacheEntry = CacheEntry(content: string, sections: map<string, string>)

  type Cache = OrderedDict<CacheEntry>

  /** The string-valued arguments of a tool call. */
  type Arguments = map<string, string>

  /** `arguments.get(name, default)` */
  function Arg(args: Arguments, name: string, default: string): string {
    if name in args then args[name] else default
  }

  // ---------------------------------------------------------------------
  // Filing files into the cache
  // ---------------------------------------------------------------------

  function CacheKey(c: Category): string {
    match c
    case Overview => "overview"
    case PluginsOverview => "plugins_overview"
    case Plugin(name) => "plugin_" + name
    case Api => "api"
    case Testing => "testing"
    case Subsystem(name) => "subsystem_" + name
  }

  /** Distinct categories never share a cache key, so a file can only
      overwrite a file of its own category. */
  lemma CacheKeyInjective(c1: Category, c2: Category)
    ensures CacheKey(c1) == CacheKey(c2) <==> c1 == c2
  {
    if c1 != c2 {
      var k1, k2 := CacheKey(c1), CacheKey(c2);
      if c1.Plugin? && c2.Plugin? {
        assert k1[7..] != k2[7..];
      } else if c1.Subsystem? && c2.Subsystem? {
        assert k1[10..] != k2[10..];
      } else if (c1.Plugin? && c2 == PluginsOverview) || (c1 == PluginsOverview && c2.Plugin?) {
        assert k1[6] != k2[6];
      } else {
        assert k1[0] != k2[0];
      }
    }
  }

  /** The overview entry's text: the Purpose and Repository Structure
      sections, summarised to 50 lines. */
  function OverviewText(sections: map<string, string>): string {
    SummaryOf(Section(sections, "Purpose") + "\n\n" + Section(sections, "Repository Structure"), 50)
  }

  /** What `_cache_*` stores for a file of the given category. */
  function EntryFor(c: Category, content: string): CacheEntry {
    var sections := SectionsOf(content);
    if c == Overview then CacheEntry(OverviewText(sections), sections) else CacheEntry(content, sections)
  }

  function Binding(f: DocFile): (string, CacheEntry) {
    var c := Categorize(f.dirs);
    (CacheKey(c), EntryFor(c, f.content))
  }

  /** The cache assignments the files cause, in the order they are visited. */
  function Bindings(files: seq<DocFile>): (r: seq<(string, CacheEntry)>)
    ensures |r| == |files| && forall i :: 0 <= i < |files| ==> r[i] == Binding(files[i])
  {
    seq(|files|, i requires 0 <= i < |files| => Binding(files[i]))
  }

  lemma BindingsStep(files: seq<DocFile>, i: nat)
    requires i < |files|
    ensures Bindings(files[..i + 1]) == Bindings(files[..i]) + [Binding(files[i])]
  {
    assert files[..i + 1][..i] == files[..i];
  }

  class DocToolsServer {
    var documentationCache: Cache

    /** `__init__`: files are the documentation files in sorted order. */
    constructor (files: seq<DocFile>)
      ensures Valid(documentationCache)
      ensures documentationCache == PutAll(Empty(), Bindings(files))
    {
      documentationCache := Empty();
      new;
      ProcessDocumentation(files);
    }

    /** `_process_documentation` */
    method ProcessDocumentation(files: seq<DocFile>)
      requires Valid(documentationCache)
      modifies this
      ensures Valid(documentationCache)
      ensures documentationCache == PutAll(old(documentationCache), Bindings(files))
    {
      ghost var start := documentationCache;
      var i := 0;
      while i < |files|
        invariant 0 <= i <= |files|
        invariant documentationCache == PutAll(start, Bindings(files[..i]))
      {
        ghost var done := Bindings(files[..i]);
        ghost var b := Binding(files[i]);
        FileDocument(files[i]);
        BindingsStep(files, i);
        PutAllOne(start, done, b.0, b.1);
        i := i + 1;
      }
      assert files[..i] == files;
      PutAllValid(start, Bindings(files));
    }

    /** The body of the `_process_documentation` loop: file one document
        under the key its place in the tree selects. */
    method FileDocument(file: DocFile)
      modifies this
      ensures documentationCache == Put(old(documentationCache), Binding(file).0, Binding(file).1)
    {
      var dirs := file.dirs;
      var content := file.content;
      ghost var c := Categorize(dirs);
      if dirs == [] {
        assert c == Overview;
        CacheOverviewContent(content);
      } else if IsSubstring("plugins", PathString(dirs)) {
        var pluginName := dirs[|dirs| - 1];
        if pluginName == "plugins" {
          assert c == PluginsOverview;
          CachePluginsOverview(content);
        } else {
          assert c == Plugin(pluginName);
          CachePluginContent(pluginName, content);
        }
      } else if IsSubstring("api", PathString(dirs)) {
        assert c == Api;
        CacheApiContent(content);
      } else if IsSubstring("tests", PathString(dirs)) {
        assert c == Testing;
        CacheTestingContent(content);
      } else {
        assert c == Subsystem(ParentName(dirs));
        CacheSubsystemContent(dirs, content);
      }
    }

    /** `_cache_overview_content` */
    method CacheOverviewContent(content: string)
      modifies this
      ensures documentationCache == Put(old(documentationCache), "overview", EntryFor(Overview, content))
    {
      var sections := ExtractSections(content);
      var summary := Summarize(Section(sections, "Purpose") + "\n\n" + Section(sections, "Repository Structure"), 50);
      documentationCache := Put(documentationCache, "overview", CacheEntry(summary, sections));
    }

    /** `_cache_plugins_overview` */
    method CachePluginsOverview(content: string)
      modifies this
      ensures documentationCache == Put(old(documentationCache), "plugins_overview", EntryFor(PluginsOverview, content))
    {
      var sections := ExtractSections(content);
      documentationCache := Put(documentationCache, "plugins_overview", CacheEntry(content, sections));
    }

    /** `_cache_plugin_content` (its path argument is unused by the source). */
    method CachePluginContent(pluginName: string, content: string)
      modifies this
      ensures documentationCache == Put(old(documentationCache), "plugin_" + pluginName, EntryFor(Plugin(pluginName), content))
    {
      var sections := ExtractSections(content);
      documentationCache := Put(documentationCache, "plugin_" + pluginName, CacheEntry(content, sections));
    }

    /** `_cache_api_content` */
    method CacheApiContent(content: string)
      modifies this
      ensures documentationCache == Put(old(documentationCache), "api", EntryFor(Api, content))
    {
      var sections := ExtractSections(content);
      documentationCache := Put(documentationCache, "api", CacheEntry(content, sections));
    }

    /** `_cache_testing_content` */
    method CacheTestingContent(content: string)
      modifies this
      ensures documentationCache == Put(old(documentationCache), "testing", EntryFor(Testing, content))
    {
      var sections := ExtractSections(content);
      documentationCache := Put(documentationCache, "testing", CacheEntry(content, sections));
    }

    /** `_cache_subsystem_content`: the subsystem is named by the file's directory. */
    method CacheSubsystemContent(dirs: seq<string>, content: string)
      requires dirs != []
      modifies this
      ensures documentationCache ==
        Put(old(documentationCache), "subsystem_" + ParentName(dirs), EntryFor(Subsystem(ParentName(dirs)), content))
    {
      var subsystem := dirs[|dirs| - 1];
      var sections := ExtractSections(content);
      documentationCache := Put(documentationCache, "subsystem_" + subsystem, CacheEntry(content, sections));
    }

    /** `handle_call_tool`: dispatch on the tool name. The outcome of running
        the test script is supplied by the caller. */
    method HandleCallTool(name: string, args: Arguments, testRun: TestRun) returns (text: string)
      requires Valid(documentationCache)
      ensures name == "truenas_overview" ==> text == OverviewTool(documentationCache)
      ensures name == "truenas_plugin_docs" ==> text == PluginDocsTool(documentationCache, args)
      ensures name == "truenas_api_docs" ==> text == ApiDocsTool(documentationCache, args)
      ensures name == "truenas_testing_docs" ==> text == TestingDocsTool(documentationCache, args)
      ensures name == "truenas_subsystem_docs" ==> text == SubsystemDocsTool(documentationCache, args)
      ensures name == "truenas_search_docs" ==> text == SearchText(documentationCache, Arg(args, "query", ""))
      ensures name == "truenas_run_tests" ==> text == RunTestsText(testRun)
      ensures name !in ToolNames ==> text == "Unknown tool: " + name
    {
      var cache := documentationCache;
      if name == "truenas_overview" {
        text := OverviewTool(cache);
      } else if name == "truenas_plugin_docs" {
        text := PluginDocsTool(cache, args);
      } else if name == "truenas_api_docs" {
        text := ApiDocsTool(cache, args);
      } else if name == "truenas_testing_docs" {
        text := TestingDocsTool(cache, args);
      } else if name == "truenas_subsystem_docs" {
        text := SubsystemDocsTool(cache, args);
      } else if name == "truenas_search_docs" {
        text := SearchDocs(cache, args);
      } else if name == "truenas_run_tests" {
        match testRun
        case ScriptMissing(path) => text := "Test script not found at " + path;
        case TimedOut => text := "❌ Test execution timed out after 10 minutes";
        case RunError(message) => text := "❌ Error running tests: " + message;
        case Finished(returnCode, stdout, stderr) => text := FormatTestRun(returnCode, stdout, stderr);
      } else {
        text := "Unknown tool: " + name;
      }
    }
  }

  /** The seven tool names `handle_list_tools` advertises. */
  const ToolNames: seq<string> := [
    "truenas_overview", "truenas_plugin_docs", "truenas_api_docs", "truenas_testing_docs",
    "truenas_subsystem_docs", "truenas_search_docs", "truenas_run_tests"]

  // ---------------------------------------------------------------------
  // Topic handlers
  // ---------------------------------------------------------------------

  /** `_handle_overview_tool` */
  function OverviewTool(cache: Cache): (r: string)
    ensures "overview" !in cache.entries ==> r == "Overview documentation not found"
    ensures "overview" in cache.entries ==>
      var e := cache.entries["overview"];
      r == if "Development Guidelines" in e.sections
           then e.content + "\n\n## Development Guidelines\n" + e.sections["Development Guidelines"]
           else e.content
  {
    if "overview" in cache.entries then
      var e := cache.entries["overview"];
      var content := e.content;
      if "Development Guidelines" in e.sections
      then content + "\n\n## Development Guidelines\n" + e.sections["Development Guidelines"]
      else content
    else "Overview documentation not found"
  }

  /** `[k.replace(prefix, "") for k in keys if k.startswith(prefix) and k != exclude]` */
  function NamesWithPrefix(keys: seq<string>, prefix: string, exclude: string): (r: seq<string>)
    requires |prefix| > 0
    ensures |r| <= |keys|
    decreases |keys|
  {
    if keys == [] then []
    else
      var init := NamesWithPrefix(keys[..|keys| - 1], prefix, exclude);
      var k := keys[|keys| - 1];
      if StartsWith(k, prefix) && k != exclude then init + [ReplaceAll(k, prefix, "")] else init
  }

  /** The names listed are exactly those of the keys carrying the prefix. */
  lemma {:induction false} NamesWithPrefixExact(keys: seq<string>, prefix: string, exclude: string, name: string)
    requires |prefix| > 0
    ensures name in NamesWithPrefix(keys, prefix, exclude) <==>
      exists i :: 0 <= i < |keys| && StartsWith(keys[i], prefix) && keys[i] != exclude &&
                  ReplaceAll(keys[i], prefix, "") == name
    decreases |keys|
  {
    if keys != [] {
      var n := |keys| - 1;
      NamesWithPrefixExact(keys[..n], prefix, exclude, name);
      if exists i :: 0 <= i < |keys| && StartsWith(keys[i], prefix) && keys[i] != exclude &&
                     ReplaceAll(keys[i], prefix, "") == name {
        var i :| 0 <= i < |keys| && StartsWith(keys[i], prefix) && keys[i] != exclude &&
                 ReplaceAll(keys[i], prefix, "") == name;
        if i < n {
          assert keys[..n][i] == keys[i];
        }
      }
    }
  }

  /** The plugin names a miss lists. */
  function PluginNames(cache: Cache): seq<string> {
    NamesWithPrefix(cache.keys, "plugin_", "plugins_overview")
  }

  /** The subsystem names a blank request or a miss lists. */
  function SubsystemNames(cache: Cache): seq<string> {
    NamesWithPrefix(cache.keys, "subsystem_", "")
  }

  /** A plugin cached under `plugin_<n>` is listed as n, when n holds no
      further `plugin_`. */
  lemma PluginIsListed(cache: Cache, n: string)
    requires "plugin_" + n in cache.keys && !IsSubstring("plugin_", n)
    ensures n in PluginNames(cache)
  {
    var k := "plugin_" + n;
    var i :| 0 <= i < |cache.keys| && cache.keys[i] == k;
    assert k[..7] == "plugin_";
    assert k != "plugins_overview" by { assert k[6] != "plugins_overview"[6]; }
    ReplacePrefix("plugin_", n);
    NamesWithPrefixExact(cache.keys, "plugin_", "plugins_overview", n);
  }

  /** `_handle_plugin_docs_tool` */
  function PluginDocsTool(cache: Cache, args: Arguments): (r: string)
    ensures var name := Strip(Arg(args, "plugin_name", ""));
      name != "" ==>
        r == if "plugin_" + name in cache.entries then cache.entries["plugin_" + name].content
             else "Plugin '" + name + "' not found. Available plugins: " + Join(", ", PluginNames(cache))
    ensures var name := Strip(Arg(args, "plugin_name", ""));
      name == "" && "plugins_overview" !in cache.entries ==> r == "Plugin overview documentation not found"
    ensures var name := Strip(Arg(args, "plugin_name", ""));
      name == "" && "plugins_overview" in cache.entries ==>
        r == PluginOverviewAnswer(cache.entries["plugins_overview"], Arg(args, "topic", "all"))
  {
    var name := Strip(Arg(args, "plugin_name", ""));
    var topic := Arg(args, "topic", "all");
    if name != "" then
      var key := "plugin_" + name;
      if key in cache.entries then cache.entries[key].content
      else "Plugin '" + name + "' not found. Available plugins: " + Join(", ", PluginNames(cache))
    else if "plugins_overview" !in cache.entries then "Plugin overview documentation not found"
    else PluginOverviewAnswer(cache.entries["plugins_overview"], topic)
  }

  /** The general branch of `_handle_plugin_docs_tool`: the whole plugins
      overview for "all", the topic's section under its heading, or an error. */
  function PluginOverviewAnswer(entry: CacheEntry, topic: string): (r: string)
    ensures topic == "all" ==> r == entry.content
    ensures topic == "service_types" ==>
      r == if "Service Types and Base Classes" in entry.sections
           then "## Service Types and Base Classes\n" + entry.sections["Service Types and Base Classes"]
           else "Topic '" + topic + "' not found in plugin documentation"
    ensures topic == "patterns" ==>
      r == if "Common Plugin Patterns" in entry.sections
           then "## Common Plugin Patterns\n" + entry.sections["Common Plugin Patterns"]
           else "Topic '" + topic + "' not found in plugin documentation"
    ensures topic == "categories" ==>
      r == if "Key Plugins by Category" in entry.sections
           then "## Key Plugins by Category\n" + entry.sections["Key Plugins by Category"]
           else "Topic '" + topic + "' not found in plugin documentation"
    ensures topic !in PluginTopics ==> r == "Topic '" + topic + "' not found in plugin documentation"
  {
    var sections := entry.sections;
    var contentParts :=
      if topic == "all" then [entry.content]
      else if topic == "service_types" && "Service Types and Base Classes" in sections then
        ["## Service Types and Base Classes\n" + sections["Service Types and Base Classes"]]
      else if topic == "patterns" && "Common Plugin Patterns" in sections then
        ["## Common Plugin Patterns\n" + sections["Common Plugin Patterns"]]
      else if topic == "categories" && "Key Plugins by Category" in sections then
        ["## Key Plugins by Category\n" + sections["Key Plugins by Category"]]
      else [];
    if contentParts != [] then Join("\n\n", contentParts)
    else "Topic '" + topic + "' not found in plugin documentation"
  }

  /** The topics `_handle_plugin_docs_tool` knows. */
  const PluginTopics: seq<string> := ["all", "service_types", "patterns", "categories"]

  /** A non-blank plugin name decides the answer on its own: the topic is
      ignored. */
  lemma PluginDocsIgnoresTopic(cache: Cache, args: Arguments, topic: string)
    requires Strip(Arg(args, "plugin_name", "")) != ""
    ensures PluginDocsTool(cache, args["topic" := topic]) == PluginDocsTool(cache, args)
  {
    assert Arg(args["topic" := topic], "plugin_name", "") == Arg(args, "plugin_name", "");
  }

  /** The part shown for a section that is present: `"## <name>\n<body>"`. */
  predicate IsPresentPart(sections: map<string, string>, names: seq<string>, part: string) {
    exists i :: 0 <= i < |names| && names[i] in sections && part == "## " + names[i] + "\n" + sections[names[i]]
  }

  /** `"## <name>\n<body>"` for each name of the list that is a section, in
      list order. */
  function PresentSections(sections: map<string, string>, names: seq<string>): (r: seq<string>)
    ensures |r| <= |names|
    ensures r == [] <==> forall i :: 0 <= i < |names| ==> names[i] !in sections
    ensures forall j :: 0 <= j < |r| ==> IsPresentPart(sections, names, r[j])
    ensures forall i :: 0 <= i < |names| && names[i] in sections ==> "## " + names[i] + "\n" + sections[names[i]] in r
    decreases |names|
  {
    if names == [] then []
    else
      var rest := PresentSections(sections, names[1..]);
      assert forall i :: 1 <= i < |names| ==> names[i] == names[1..][i - 1];
      assert forall j :: 0 <= j < |rest| ==> IsPresentPart(sections, names, rest[j]) by {
        forall j | 0 <= j < |rest| ensures IsPresentPart(sections, names, rest[j]) {
          assert IsPresentPart(sections, names[1..], rest[j]);
          var i :| 0 <= i < |names[1..]| && names[1..][i] in sections &&
            rest[j] == "## " + names[1..][i] + "\n" + sections[names[1..][i]];
          assert names[i + 1] == names[1..][i];
        }
      }
      if names[0] in sections then ["## " + names[0] + "\n" + sections[names[0]]] + rest else rest
  }

  /** The parts follow the order of the list: the parts of a concatenated
      list are those of its first half, then those of its second. */
  lemma {:induction false} PresentSectionsAppend(sections: map<string, string>, a: seq<string>, b: seq<string>)
    ensures PresentSections(sections, a + b) == PresentSections(sections, a) + PresentSections(sections, b)
    decreases |a|
  {
    if a != [] {
      assert (a + b)[1..] == a[1..] + b;
      PresentSectionsAppend(sections, a[1..], b);
    } else {
      assert a + b == b;
    }
  }

  const VersioningSections: seq<string> := ["Overview", "Directory Structure", "Migration Between Versions"]
  const TestingOverviewSections: seq<string> := ["Overview", "Test Structure", "Writing Tests"]

  /** The topics `_handle_testing_docs_tool` knows. */
  const TestingTopics: seq<string> := ["all", "overview", "patterns"]

  /** The topics `_handle_api_docs_tool` knows. */
  const ApiTopics: seq<string> := ["all", "versioning", "models", "patterns", "best_practices"]

  /** `_handle_api_docs_tool` */
  function ApiDocsTool(cache: Cache, args: Arguments): (r: string)
    ensures "api" !in cache.entries ==> r == "API documentation not found"
    ensures "api" in cache.entries ==> r == ApiAnswer(cache.entries["api"], Arg(args, "topic", "all"))
  {
    var topic := Arg(args, "topic", "all");
    if "api" !in cache.entries then "API documentation not found"
    else ApiAnswer(cache.entries["api"], topic)
  }

  /** The answer for a topic once the API entry exists. */
  function ApiAnswer(entry: CacheEntry, topic: string): (r: string)
    ensures topic == "all" ==> r == entry.content
    ensures topic == "versioning" ==>
      var parts := PresentSections(entry.sections, VersioningSections);
      r == if parts != [] then Join("\n\n", parts) else "Topic '" + topic + "' not found in API documentation"
    ensures topic == "models" ==>
      r == if "Key Concepts" in entry.sections
           then "## API Models and Concepts\n" + entry.sections["Key Concepts"]
           else "Topic '" + topic + "' not found in API documentation"
    ensures topic == "patterns" ==>
      r == if "Common Patterns" in entry.sections
           then "## Common API Patterns\n" + entry.sections["Common Patterns"]
           else "Topic '" + topic + "' not found in API documentation"
    ensures topic == "best_practices" ==>
      r == if "Best Practices" in entry.sections
           then "## API Best Practices\n" + entry.sections["Best Practices"]
           else "Topic '" + topic + "' not found in API documentation"
    ensures topic !in ApiTopics ==> r == "Topic '" + topic + "' not found in API documentation"
  {
    var sections := entry.sections;
    var contentParts :=
      if topic == "all" then [entry.content]
      else if topic == "versioning" then PresentSections(sections, VersioningSections)
      else if topic == "models" && "Key Concepts" in sections then
        ["## API Models and Concepts\n" + sections["Key Concepts"]]
      else if topic == "patterns" && "Common Patterns" in sections then
        ["## Common API Patterns\n" + sections["Common Patterns"]]
      else if topic == "best_practices" && "Best Practices" in sections then
        ["## API Best Practices\n" + sections["Best Practices"]]
      else [];
    if contentParts != [] then Join("\n\n", contentParts)
    else "Topic '" + topic + "' not found in API documentation"
  }

  /** `_handle_testing_docs_tool` */
  function TestingDocsTool(cache: Cache, args: Arguments): (r: string)
    ensures "testing" !in cache.entries ==> r == "Testing documentation not found"
    ensures "testing" in cache.entries ==> r == TestingAnswer(cache.entries["testing"], Arg(args, "topic", "all"))
  {
    var topic := Arg(args, "topic", "all");
    if "testing" !in cache.entries then "Testing documentation not found"
    else TestingAnswer(cache.entries["testing"], topic)
  }

  /** The answer for a topic once the testing entry exists. */
  function TestingAnswer(entry: CacheEntry, topic: string): (r: string)
    ensures topic == "all" ==> r == entry.content
    ensures topic == "overview" ==>
      var parts := PresentSections(entry.sections, TestingOverviewSections);
      r == if parts != [] then Join("\n\n", parts) else "Topic '" + topic + "' not found in testing documentation"
    ensures topic == "patterns" ==>
      r == if "Common Patterns" in entry.sections
           then "## Testing Patterns\n" + entry.sections["Common Patterns"]
           else "Topic '" + topic + "' not found in testing documentation"
    ensures topic !in TestingTopics ==> r == "Topic '" + topic + "' not found in testing documentation"
  {
    var sections := entry.sections;
    var contentParts :=
      if topic == "all" then [entry.content]
      else if topic == "overview" then PresentSections(sections, TestingOverviewSections)
      else if topic == "patterns" && "Common Patterns" in sections then
        ["## Testing Patterns\n" + sections["Common Patterns"]]
      else [];
    if contentParts != [] then Join("\n\n", contentParts)
    else "Topic '" + topic + "' not found in testing documentation"
  }

  /** `_handle_subsystem_docs_tool` */
  function SubsystemDocsTool(cache: Cache, args: Arguments): (r: string)
    ensures var name := Strip(Arg(args, "subsystem", ""));
      name == "" ==> r == "Please specify a subsystem. Available: " + Join(", ", SubsystemNames(cache))
    ensures var name := Strip(Arg(args, "subsystem", ""));
      name != "" && "subsystem_" + name in cache.entries ==> r == cache.entries["subsystem_" + name].content
    ensures var name := Strip(Arg(args, "subsystem", ""));
      name != "" && "subsystem_" + name !in cache.entries ==>
        r == "Subsystem '" + name + "' not found. Available subsystems: " + Join(", ", SubsystemNames(cache))
  {
    var name := Strip(Arg(args, "subsystem", ""));
    if name == "" then "Please specify a subsystem. Available: " + Join(", ", SubsystemNames(cache))
    else
      var key := "subsystem_" + name;
      if key in cache.entries then cache.entries[key].content
      else "Subsystem '" + name + "' not found. Available subsystems: " + Join(", ", SubsystemNames(cache))
  }

  /** After filing the files, asking for a plugin by the name of its
      directory returns the text of the last file filed for that plugin. */
  lemma PluginDocsServeLastPluginFile(files: seq<DocFile>, j: nat, name: string)
    requires j < |files| && Categorize(files[j].dirs) == Plugin(name)
    requires forall i :: j < i < |files| ==> Categorize(files[i].dirs) != Plugin(name)
    requires Strip(name) == name && name != ""
    ensures PluginDocsTool(PutAll(Empty(), Bindings(files)), map["plugin_name" := name]) == files[j].content
  {
    var kvs := Bindings(files);
    forall i | j < i < |kvs| ensures kvs[i].0 != kvs[j].0 {
      if kvs[i].0 == kvs[j].0 {
        CacheKeyInjective(Categorize(files[i].dirs), Categorize(files[j].dirs));
      }
    }
    PutAllLastWins(Empty(), kvs, j);
  }

  /** After filing the files, asking for a subsystem by the name of its
      directory returns the text of the last file filed for it. */
  lemma SubsystemDocsServeLastSubsystemFile(files: seq<DocFile>, j: nat, name: string)
    requires j < |files| && Categorize(files[j].dirs) == Subsystem(name)
    requires forall i :: j < i < |files| ==> Categorize(files[i].dirs) != Subsystem(name)
    requires Strip(name) == name && name != ""
    ensures SubsystemDocsTool(PutAll(Empty(), Bindings(files)), map["subsystem" := name]) == files[j].content
  {
    var kvs := Bindings(files);
    forall i | j < i < |kvs| ensures kvs[i].0 != kvs[j].0 {
      if kvs[i].0 == kvs[j].0 {
        CacheKeyInjective(Categorize(files[i].dirs), Categorize(files[j].dirs));
      }
    }
    PutAllLastWins(Empty(), kvs, j);
  }

  // ---------------------------------------------------------------------
  // Search
  // ---------------------------------------------------------------------

  /** The context shown around a match on line i: lines i-2 to i+2, clipped
      to the document. */
  function Snippet(lines: seq<string>, i: nat): string
    requires i < |lines|
  {
    var start := if i >= 2 then i - 2 else 0;
    var end := if i + 3 <= |lines| then i + 3 else |lines|;
    "..." + Join("\n", lines[start..end]) + "..."
  }

  predicate LineMatches(lines: seq<string>, query: string, i: nat)
    requires i < |lines|
  {
    IsSubstring(query, Lower(lines[i]))
  }

  /** The snippets of the matching lines among the first n, in line order. */
  function SnippetsUpTo(lines: seq<string>, query: string, n: nat): (r: seq<string>)
    requires n <= |lines|
    decreases n
  {
    if n == 0 then []
    else
      var init := SnippetsUpTo(lines, query, n - 1);
      if LineMatches(lines, query, n - 1) then init + [Snippet(lines, n - 1)] else init
  }

  /** There is one snippet per matching line. */
  lemma {:induction false} SnippetsAreMatches(lines: seq<string>, query: string, n: nat)
    requires n <= |lines|
    ensures SnippetsUpTo(lines, query, n) == [] <==> forall i :: 0 <= i < n ==> !LineMatches(lines, query, i)
    decreases n
  {
    if n > 0 {
      SnippetsAreMatches(lines, query, n - 1);
    }
  }

  /** A query without a newline found in a document is found on one of its
      lines, so a reported document always shows at least one snippet. */
  lemma SearchShowsSnippet(content: string, query: string)
    requires '\n' !in query && IsSubstring(query, Lower(content))
    ensures SnippetsUpTo(Split(content, '\n'), query, |Split(content, '\n')|) != []
  {
    var lines := Split(content, '\n');
    var i := SubstringInSomePiece(query, Lower(content), '\n');
    SplitLower(content, '\n');
    assert LineMatches(lines, query, i);
    SnippetsAreMatches(lines, query, |lines|);
  }

  /** `matching_lines[:3]` */
  function FirstThree(s: seq<string>): (r: seq<string>)
    ensures |r| <= 3 && |r| <= |s| && r == s[..|r|]
    ensures |s| <= 3 ==> r == s
  {
    if |s| <= 3 then s else s[..3]
  }

  /** The result block for one reported document. */
  function ResultBlock(docKey: string, snippets: seq<string>): string {
    "## Found in " + Title(ReplaceAll(docKey, "_", " ")) + "\n\n" + Join("\n\n", FirstThree(snippets))
  }

  predicate Reported(cache: Cache, query: string, docKey: string) {
    docKey in cache.entries && IsSubstring(query, Lower(cache.entries[docKey].content))
  }

  /** The keys among `keys` whose document contains the query, in key order. */
  function Hits(cache: Cache, query: string, keys: seq<string>): (r: seq<string>)
    ensures forall k :: k in r ==> k in cache.entries
    decreases |keys|
  {
    if keys == [] then []
    else
      var init := Hits(cache, query, keys[..|keys| - 1]);
      var k := keys[|keys| - 1];
      if Reported(cache, query, k) then init + [k] else init
  }

  /** A document is reported exactly when the lower-cased query occurs in its
      lower-cased text, and the reports follow the cache order. */
  lemma {:induction false} HitsExact(cache: Cache, query: string, keys: seq<string>, k: string)
    ensures k in Hits(cache, query, keys) <==> k in keys && Reported(cache, query, k)
    ensures Subsequence(Hits(cache, query, keys), keys)
    decreases |keys|
  {
    if keys != [] {
      var init := keys[..|keys| - 1];
      HitsExact(cache, query, init, k);
      assert keys == init + [keys[|keys| - 1]];
      var h := Hits(cache, query, keys);
      if h != Hits(cache, query, init) {
        assert h[..|h| - 1] == Hits(cache, query, init);
      }
    }
  }

  /** The result blocks for the keys, one per reported key, in key order. */
  function SearchBlocks(cache: Cache, query: string, keys: seq<string>): (r: seq<string>)
    decreases |keys|
  {
    if keys == [] then []
    else
      var init := SearchBlocks(cache, query, keys[..|keys| - 1]);
      var k := keys[|keys| - 1];
      if Reported(cache, query, k) then
        var lines := Split(cache.entries[k].content, '\n');
        init + [ResultBlock(k, SnippetsUpTo(lines, query, |lines|))]
      else init
  }

  /** There is one result block per reported key. */
  lemma {:induction false} SearchBlocksPerHit(cache: Cache, query: string, keys: seq<string>)
    ensures |SearchBlocks(cache, query, keys)| == |Hits(cache, query, keys)|
    decreases |keys|
  {
    if keys != [] {
      SearchBlocksPerHit(cache, query, keys[..|keys| - 1]);
    }
  }

  /** What `_handle_search_docs_tool` answers for the raw query. */
  function SearchText(cache: Cache, rawQuery: string): (r: string)
    ensures var query := Lower(Strip(rawQuery));
      query == "" ==> r == "Please provide a search query"
    ensures var query := Lower(Strip(rawQuery));
      query != "" && Hits(cache, query, cache.keys) == [] ==> r == "No results found for '" + query + "'"
    ensures var query := Lower(Strip(rawQuery));
      query != "" && Hits(cache, query, cache.keys) != [] ==>
        StartsWith(r, "# Search Results for '" + query + "'\n\n")
  {
    var query := Lower(Strip(rawQuery));
    SearchBlocksPerHit(cache, query, cache.keys);
    if query == "" then "Please provide a search query"
    else
      var results := SearchBlocks(cache, query, cache.keys);
      var header := "# Search Results for '" + query + "'\n\n";
      if results != [] then
        var r := header + Join("\n\n---\n\n", results);
        assert r[..|header|] == header;
        r
      else "No results found for '" + query + "'"
  }

  /** The inner loop of `_handle_search_docs_tool`: a snippet for every line
      holding the query. */
  method MatchingSnippets(lines: seq<string>, query: string) returns (matchingLines: seq<string>)
    ensures matchingLines == SnippetsUpTo(lines, query, |lines|)
  {
    matchingLines := [];
    var j := 0;
    while j < |lines|
      invariant 0 <= j <= |lines|
      invariant matchingLines == SnippetsUpTo(lines, query, j)
    {
      if IsSubstring(query, Lower(lines[j])) {
        var start := if j >= 2 then j - 2 else 0;
        var end := if j + 3 <= |lines| then j + 3 else |lines|;
        matchingLines := matchingLines + ["..." + Join("\n", lines[start..end]) + "..."];
      }
      j := j + 1;
    }
  }

  /** `_handle_search_docs_tool` */
  method SearchDocs(cache: Cache, args: Arguments) returns (text: string)
    requires Valid(cache)
    ensures text == SearchText(cache, Arg(args, "query", ""))
  {
    var query := Lower(Strip(Arg(args, "query", "")));
    if query == "" {
      return "Please provide a search query";
    }
    var results: seq<string> := [];
    var i := 0;
    while i < |cache.keys|
      invariant 0 <= i <= |cache.keys|
      invariant results == SearchBlocks(cache, query, cache.keys[..i])
    {
      var docKey := cache.keys[i];
      assert cache.keys[..i + 1][..i] == cache.keys[..i];
      var content := cache.entries[docKey].content;
      if IsSubstring(query, Lower(content)) {
        var lines := Split(content, '\n');
        var matchingLines := MatchingSnippets(lines, query);
        results := results + [ResultBlock(docKey, matchingLines)];
      }
      i := i + 1;
    }
    assert cache.keys[..i] == cache.keys;
    if results != [] {
      text := "# Search Results for '" + query + "'\n\n" + Join("\n\n---\n\n", results);
    } else {
      text := "No results found for '" + query + "'";
    }
  }

  // ---------------------------------------------------------------------
  // Formatting the outcome of a test run
  // ---------------------------------------------------------------------

  /** What running the test script produced; spawning the process is not
      modelled. */
  datatype TestRun =
    | ScriptMissing(scriptPath: string)
    | TimedOut
    | RunError(message: string)
    | Finished(returnCode: int, stdout: string, stderr: string)

  const SuccessLine := "✅ Tests completed successfully!"

  predicate StartsCapture(line: string) {
    IsSubstring("test session starts", line)
  }

  predicate EndsCapture(line: string) {
    IsSubstring("passed", line) && IsSubstring("warnings", line)
  }

  /** The first line at or after j that starts the pytest block, or the end. */
  function FirstStart(lines: seq<string>, j: nat): (e: nat)
    requires j <= |lines|
    ensures j <= e <= |lines|
    ensures forall k :: j <= k < e ==> !StartsCapture(lines[k])
    ensures e < |lines| ==> StartsCapture(lines[e])
    decreases |lines| - j
  {
    if j == |lines| || StartsCapture(lines[j]) then j else FirstStart(lines, j + 1)
  }

  /** The first line at or after j that ends the pytest block, or the end. */
  function FirstEnd(lines: seq<string>, j: nat): (e: nat)
    requires j <= |lines|
    ensures j <= e <= |lines|
    ensures forall k :: j <= k < e ==> !EndsCapture(lines[k])
    ensures e < |lines| ==> EndsCapture(lines[e])
    decreases |lines| - j
  {
    if j == |lines| || EndsCapture(lines[j]) then j else FirstEnd(lines, j + 1)
  }

  /** The captured pytest block: from the first "test session starts" line
      through the first line with both "passed" and "warnings", that last line
      appearing twice; only the end line when it comes before any start; from
      the start to the end of the output when no line ends the block. */
  function CapturedLines(lines: seq<string>): seq<string> {
    var s := FirstStart(lines, 0);
    var e := FirstEnd(lines, 0);
    if e < |lines| then
      (if s <= e then lines[s..e + 1] + [lines[e]] else [lines[e]])
    else if s < |lines| then lines[s..]
    else []
  }

  /** The scan with the `capture` flag, which stops at the first end line. */
  method CaptureTestOutput(lines: seq<string>) returns (testOutput: seq<string>)
    ensures testOutput == CapturedLines(lines)
  {
    testOutput := [];
    var capture := false;
    var i := 0;
    ghost var s := FirstStart(lines, 0);
    while i < |lines|
      invariant 0 <= i <= |lines|
      invariant forall k :: 0 <= k < i ==> !EndsCapture(lines[k])
      invariant capture <==> s < i
      invariant testOutput == if s < i then lines[s..i] else []
    {
      var line := lines[i];
      CaptureStep(lines, i, s);
      if StartsCapture(line) {
        capture := true;
      }
      if capture {
        testOutput := testOutput + [line];
      }
      if EndsCapture(line) {
        FirstEndIs(lines, i);
        testOutput := testOutput + [line];
        return;
      }
      i := i + 1;
    }
    FirstEndIs(lines, |lines|);
  }

  /** How the captured prefix grows by one line. */
  lemma CaptureStep(lines: seq<string>, i: nat, s: nat)
    requires i < |lines| && s <= |lines|
    requires forall k :: 0 <= k < s ==> !StartsCapture(lines[k])
    requires s < |lines| ==> StartsCapture(lines[s])
    ensures s < i + 1 <==> s < i || StartsCapture(lines[i])
    ensures s < i + 1 ==> lines[s..i + 1] == (if s < i then lines[s..i] else []) + [lines[i]]
  {
    if s < i {
      assert lines[s..i + 1] == lines[s..i] + [lines[i]];
    } else if s == i {
      assert StartsCapture(lines[s]);
      assert lines[s..i + 1] == [lines[i]];
    } else {
      assert !StartsCapture(lines[i]);
    }
  }

  lemma FirstEndIs(lines: seq<string>, e: nat)
    requires e <= |lines|
    requires forall k :: 0 <= k < e ==> !EndsCapture(lines[k])
    requires e == |lines| || EndsCapture(lines[e])
    ensures FirstEnd(lines, 0) == e
  {
    var f := FirstEnd(lines, 0);
    assert !(f < e);
  }

  /** `lines[-n:]` */
  function LastLines(lines: seq<string>, n: nat): (r: seq<string>)
    ensures |r| == if |lines| < n then |lines| else n
    ensures r == lines[|lines| - |r|..]
  {
    if |lines| <= n then lines else lines[|lines| - n..]
  }

  /** The first line of the report. */
  function StatusLine(returnCode: int): (r: string)
    ensures r == SuccessLine <==> returnCode == 0
  {
    var failure := "❌ Tests failed with exit code: " + IntToString(returnCode);
    assert failure[0] != SuccessLine[0];
    if returnCode == 0 then SuccessLine else failure
  }

  /** The output part: the captured pytest block, or else the last 50 lines;
      nothing for an empty output. */
  function OutputParts(stdout: string): seq<string> {
    if stdout == "" then []
    else
      var lines := Split(stdout, '\n');
      var captured := CapturedLines(lines);
      if captured != [] then ["\n## Test Output\n```\n" + Join("\n", captured) + "\n```"]
      else ["\n## Output (last 50 lines)\n```\n" + Join("\n", LastLines(lines, 50)) + "\n```"]
  }

  /** The error part, shown only for a failed run with error output. */
  function ErrorParts(returnCode: int, stderr: string): seq<string> {
    if stderr != "" && returnCode != 0 then ["\n## Errors\n```\n" + stderr + "\n```"] else []
  }

  /** The parts of the report, joined with newlines by the source. */
  function TestReportParts(returnCode: int, stdout: string, stderr: string): (r: seq<string>)
    ensures |r| == 1 + (if stdout != "" then 1 else 0) + (if stderr != "" && returnCode != 0 then 1 else 0)
    ensures r[0] == SuccessLine <==> returnCode == 0
    ensures stdout != "" ==>
      (r[1] ==
         if CapturedLines(Split(stdout, '\n')) != []
         then "\n## Test Output\n```\n" + Join("\n", CapturedLines(Split(stdout, '\n'))) + "\n```"
         else "\n## Output (last 50 lines)\n```\n" + Join("\n", LastLines(Split(stdout, '\n'), 50)) + "\n```")
    ensures stderr != "" && returnCode != 0 ==> r[|r| - 1] == "\n## Errors\n```\n" + stderr + "\n```"
  {
    [StatusLine(returnCode)] + OutputParts(stdout) + ErrorParts(returnCode, stderr)
  }

  /** The formatting tail of `_handle_run_tests_tool`. */
  method FormatTestRun(returnCode: int, stdout: string, stderr: string) returns (text: string)
    ensures text == Join("\n", TestReportParts(returnCode, stdout, stderr))
  {
    var resultParts: seq<string> := [];
    if returnCode == 0 {
      resultParts := resultParts + ["✅ Tests completed successfully!"];
    } else {
      resultParts := resultParts + ["❌ Tests failed with exit code: " + IntToString(returnCode)];
    }
    assert resultParts == [StatusLine(returnCode)];
    if stdout != "" {
      var lines := Split(stdout, '\n');
      var testOutput := CaptureTestOutput(lines);
      if testOutput != [] {
        resultParts := resultParts + ["\n## Test Output\n```\n" + Join("\n", testOutput) + "\n```"];
      } else {
        resultParts := resultParts + ["\n## Output (last 50 lines)\n```\n" + Join("\n", LastLines(lines, 50)) + "\n```"];
      }
    }
    assert resultParts == [StatusLine(returnCode)] + OutputParts(stdout);
    if stderr != "" && returnCode != 0 {
      resultParts := resultParts + ["\n## Errors\n```\n" + stderr + "\n```"];
    }
    assert resultParts == TestReportParts(returnCode, stdout, stderr);
    text := Join("\n", resultParts);
  }

  /** The answer of the run-tests tool for each outcome of the run. */
  function RunTestsText(testRun: TestRun): string {
    match testRun
    case ScriptMissing(path) => "Test script not found at " + path
    case TimedOut => "❌ Test execution timed out after 10 minutes"
    case RunError(message) => "❌ Error running tests: " + message
    case Finished(returnCode, stdout, stderr) => Join("\n", TestReportParts(returnCode, stdout, stderr))
  }
}

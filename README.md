# TrueNAS middleware documentation servers, modelled in Dafny

The repository ships two MCP servers. Both serve the `CLAUDE.md` files of a
documentation tree.

- `TrueNASDocToolsServer` (`truenas_mcp_tools_server.py`) files every document
  into `documentation_cache`. Its keys are `overview`, `plugins_overview`,
  `plugin_<name>`, `api`, `testing` and `subsystem_<name>`. The server answers
  seven tools from that cache: overview, plugin, API, testing, subsystem,
  search and run-tests.
- `TrueNASDocServer` (`truenas_mcp_server.py`) turns every document into zero
  or more `truenas://` resources in `resources_cache`. It lists them, reads
  them, and generates a categorised index.

Both servers share identical copies of three pieces: the level-2 section
splitter, the line-filtering summariser and the path categoriser. Each is
modelled once and cited from the tools server.

The modules follow the program:

| module | models |
|---|---|
| `Text` | Python's `split('\n')`, `join`, `strip`, `lower`, `title`, `replace`, `in` on strings, `str(int)` and `sorted` on strings |
| `OrderedDicts` | a Python `dict` as a map plus the order of first insertion; re-assigning a key keeps its place |
| `Markdown` | `_extract_sections` and `_summarize_content` |
| `DocLayout` | a document's place in the tree and the category `_process_documentation` derives from it |
| `ToolsServer` | class `DocToolsServer`: filing, the `_cache_*` methods, `handle_call_tool` and the topic, search and run-tests handlers |
| `ResourceServer` | class `DocServer`: filing, the `_create_*` methods, the summaries, `handle_list_resources`, `handle_read_resource` and `_generate_index` |

The two caches are fields of the two classes. The methods that write them are
imperative, with `modifies` clauses:

- `_process_documentation` and its loop body;
- every `_cache_*` and `_create_*` method.

Each such method states its new cache as `PutAll(old cache, bindings)`. Here
`bindings` is a function of the input files, so lemmas can reason about what
the files leave behind. Loops in the source are methods with invariants, each
proved equal to a specification function:

- the section splitter;
- the summariser;
- the search loops;
- the pytest capture scan;
- the first-match loops of `_create_plugin_summary`;
- the listing;
- the index grouping.

Each resource of `TrueNASDocServer` is a `ResourceKind` plus its text. The kind
fixes the URI, the `name` and the `description`, exactly as each `_create_*`
method writes them as constants.

Where the tests and the code disagree, the model follows the code:

- Reading an unknown URI raises `ValueError("Resource not found: <uri>")`, modelled as `Raised(...)`.
- `handle_list_tools` advertises seven tools.
- `truenas://api/versioning` needs "Directory Structure" or "Migration Between Versions".

Two consequences of the code as written are proved as lemmas:

- `TestingGuideListedUnderOverview`: the index tests for "overview" first, so `truenas://testing/overview` is listed under Overview.
- `PluginNamedPatternsSharesKey`: a plugin directory named `patterns` gets the URI `truenas://plugins/patterns`. That URI is also the plugin-patterns reference, so whichever is written later replaces the other.

## Model

| member | source | states |
|---|---|---|
| Markdown.ExtractSections | truenas_mcp_tools_server.py:106-124 | the one-pass loop returns exactly the section map of the document's lines |
| Markdown.SectionKeys | truenas_mcp_tools_server.py:112-117 | a title is a key iff some `## ` line carries that title, non-empty and stripped |
| Markdown.SectionValue | truenas_mcp_tools_server.py:112-122 | a title used by several headings keeps the body of the last one: its lines up to the next `## ` line, joined and stripped |
| Markdown.SubheadingStaysInBody | truenas_mcp_tools_server.py:113 | a `### ` line never opens a section, so it stays in the body |
| Markdown.PreambleIgnored | truenas_mcp_tools_server.py:118-119 | lines before the first heading do not change the section map |
| Markdown.Summarize | truenas_mcp_tools_server.py:126-153 | the flag-tracking loop computes `SummaryOf` |
| Markdown.SummaryOf | truenas_mcp_tools_server.py:128-130 | a text of at most maxLines lines comes back unchanged |
| Markdown.SummaryIsSubsequence | truenas_mcp_tools_server.py:133-151 | the kept lines are an in-order subsequence of the input lines |
| Markdown.SummaryKeepsMarkers | truenas_mcp_tools_server.py:146-151 | the summary holds exactly the input's header and bold-marker lines, in order |
| Markdown.MarkerIsNotFence | truenas_mcp_tools_server.py:138-149 | a marker line is never a fence line, so skipping late code blocks never drops one |
| Markdown.SummaryBound | truenas_mcp_tools_server.py:146-151 | apart from marker lines, at most maxLines lines are kept |
| Markdown.SummaryOfPlainText | truenas_mcp_tools_server.py:126-153 | a long text with no markers or fences summarises to its first maxLines lines |
| DocLayout.Categorize | truenas_mcp_tools_server.py:82-102 | the category is decided in source order: root file, then "plugins" (overview iff the parent is `plugins`), "api", "tests", else the parent's subsystem; each outcome stated both ways |
| DocLayout.PluginDirectoryWins | truenas_mcp_tools_server.py:85-93 | any file under a `plugins` directory, at any depth, is the plugins overview or the plugin named by its parent |
| DocLayout.JoinedPieceIsSubstring | truenas_mcp_tools_server.py:85 | every directory name occurs in the path string the substring tests search |
| OrderedDicts.Put | truenas_mcp_tools_server.py:158 | `d[k] = v`: k maps to v, other keys are unchanged, an existing key keeps its position and a new key goes last |
| OrderedDicts.PutAllLastWins | truenas_mcp_tools_server.py:77-102 | after a sequence of assignments a key holds the value of its last assignment |
| OrderedDicts.PutAllUntouched | truenas_mcp_tools_server.py:77-102 | a key no assignment names keeps its value |
| OrderedDicts.PutAllKeys | truenas_mcp_tools_server.py:77-102 | a key is present iff it was present before or some assignment names it |
| OrderedDicts.PutAllKeepsOrder | truenas_mcp_tools_server.py:486 | assignments never move keys already present, so iteration order is first-insertion order |
| OrderedDicts.PutAllFind | truenas_mcp_server.py:84-110 | a key's value after a batch is the batch's last value for it, otherwise its old value |
| OrderedDicts.PutAllConcat | truenas_mcp_server.py:78-110 | starting empty, a key is present after several batches iff one of them assigns it |
| OrderedDicts.SizeMatchesOrder | truenas_mcp_server.py:354-360 | the key order has one entry per key: `len(d)` |
| Text.JoinSplit | truenas_mcp_tools_server.py:112-115 | `sep.join(s.split(sep)) == s` |
| Text.SplitJoin | truenas_mcp_tools_server.py:112-115 | splitting a join of separator-free pieces gives back the pieces |
| Text.TrimStartSpec | truenas_mcp_tools_server.py:116 | `lstrip` removes exactly the leading whitespace |
| Text.TrimEndSpec | truenas_mcp_tools_server.py:116 | `rstrip` removes exactly the trailing whitespace |
| Text.StripKeepsPrefix | truenas_mcp_tools_server.py:149 | a non-space prefix survives `strip()` |
| Text.SplitLower | truenas_mcp_tools_server.py:493-497 | lower-casing and then splitting on a newline equals splitting and then lower-casing each piece |
| Text.SubstringInSomePiece | truenas_mcp_tools_server.py:491-497 | a newline-free substring of a text lies inside one of its lines |
| Text.ReplacePrefix | truenas_mcp_tools_server.py:383 | `(prefix + rest).replace(prefix, "")` is rest when rest holds no further prefix |
| Text.SortStrings | truenas_mcp_server.py:391 | `sorted` on strings gives an ordered permutation |
| Text.NatToString | truenas_mcp_tools_server.py:554 | `str(n)` is a non-empty run of decimal digits that denotes n, with no leading zero |
| ToolsServer.DocToolsServer.constructor | truenas_mcp_tools_server.py:41-62 | the cache starts empty and then holds the assignments of every file, in file order |
| ToolsServer.DocToolsServer.ProcessDocumentation | truenas_mcp_tools_server.py:73-104 | the filing loop makes every file's assignment, in order, on top of the old cache |
| ToolsServer.DocToolsServer.FileDocument | truenas_mcp_tools_server.py:82-102 | one loop turn writes exactly the key and entry the file's category selects |
| ToolsServer.DocToolsServer.CacheOverviewContent | truenas_mcp_tools_server.py:155-164 | writes `overview`: the 50-line summary of Purpose and Repository Structure, plus the section map |
| ToolsServer.DocToolsServer.CachePluginsOverview | truenas_mcp_tools_server.py:166-172 | writes `plugins_overview` with the document verbatim and its sections |
| ToolsServer.DocToolsServer.CachePluginContent | truenas_mcp_tools_server.py:174-180 | writes `plugin_<name>` with the document verbatim and its sections |
| ToolsServer.DocToolsServer.CacheApiContent | truenas_mcp_tools_server.py:182-188 | writes `api` with the document verbatim and its sections |
| ToolsServer.DocToolsServer.CacheTestingContent | truenas_mcp_tools_server.py:190-196 | writes `testing` with the document verbatim and its sections |
| ToolsServer.DocToolsServer.CacheSubsystemContent | truenas_mcp_tools_server.py:198-205 | writes `subsystem_<parent>` with the document verbatim and its sections |
| ToolsServer.CacheKeyInjective | truenas_mcp_tools_server.py:82-102 | two categories share a cache key iff they are equal, so a file only replaces a file of its own category |
| ToolsServer.DocToolsServer.HandleCallTool | truenas_mcp_tools_server.py:333-356 | each of the seven tool names goes to its handler; any other name gives "Unknown tool: <name>"; run-tests gives the script-missing, timeout or error message, or the formatted report |
| ToolsServer.OverviewTool | truenas_mcp_tools_server.py:358-368 | the overview text, followed by the Development Guidelines section when present; "not found" without an overview |
| ToolsServer.PluginDocsTool | truenas_mcp_tools_server.py:370-405 | a non-blank name returns that plugin's text or "not found" with the available names; with no name, the overview branch; "Plugin overview documentation not found" without one |
| ToolsServer.PluginOverviewAnswer | truenas_mcp_tools_server.py:390-405 | "all" gives the whole overview; each named topic gives `## <heading>\n<body>` when its section exists; otherwise the topic-not-found message |
| ToolsServer.PluginDocsIgnoresTopic | truenas_mcp_tools_server.py:372-380 | with a non-blank plugin name, changing the topic never changes the answer |
| ToolsServer.NamesWithPrefixExact | truenas_mcp_tools_server.py:383 | a name is listed iff some key carries the prefix, is not excluded and gives that name once the prefix is removed |
| ToolsServer.PluginIsListed | truenas_mcp_tools_server.py:383 | a cached plugin is listed by its own name on a miss |
| ToolsServer.PluginDocsServeLastPluginFile | truenas_mcp_tools_server.py:376-380 | after filing, asking for a plugin by its directory name returns the last file filed for it, verbatim |
| ToolsServer.PresentSections | truenas_mcp_tools_server.py:420-422 | the parts are empty iff none of the listed sections exists; each part is `## <name>\n<body>` of a present section, and every present listed section has its part |
| ToolsServer.PresentSectionsAppend | truenas_mcp_tools_server.py:420-422 | the parts follow list order: the parts of `a + b` are those of `a` followed by those of `b` |
| ToolsServer.ApiDocsTool | truenas_mcp_tools_server.py:407-414 | "API documentation not found" without the api entry; otherwise the topic answer with default topic "all" |
| ToolsServer.ApiAnswer | truenas_mcp_tools_server.py:414-433 | "all" gives the content; "versioning" gives the present sections of its list; the three other topics give their headed section when it exists; anything else gives not-found |
| ToolsServer.TestingDocsTool | truenas_mcp_tools_server.py:435-442 | "Testing documentation not found" without the entry; otherwise the topic answer with default topic "all" |
| ToolsServer.TestingAnswer | truenas_mcp_tools_server.py:442-457 | "all" gives the content; "overview" gives the present sections of its list; "patterns" gives Common Patterns; anything else gives not-found |
| ToolsServer.SubsystemDocsTool | truenas_mcp_tools_server.py:459-474 | a blank name asks for one and lists the subsystems; a hit gives the text verbatim; a miss lists every `subsystem_` name |
| ToolsServer.SubsystemDocsServeLastSubsystemFile | truenas_mcp_tools_server.py:468-471 | after filing, asking for a subsystem by its directory name returns the last file filed for it |
| ToolsServer.SearchText | truenas_mcp_tools_server.py:476-510 | an empty stripped query asks for one; no hits gives "No results found"; otherwise the results start with the search header |
| ToolsServer.SearchDocs | truenas_mcp_tools_server.py:476-510 | the search loops compute `SearchText` |
| ToolsServer.MatchingSnippets | truenas_mcp_tools_server.py:494-502 | the per-line loop yields one snippet per matching line, in line order |
| ToolsServer.HitsExact | truenas_mcp_tools_server.py:486-491 | a document is reported iff its lower-cased text holds the lower-cased query; reports follow cache order |
| ToolsServer.SearchBlocksPerHit | truenas_mcp_tools_server.py:486-505 | there is one result block per reported document |
| ToolsServer.SnippetsAreMatches | truenas_mcp_tools_server.py:496-502 | there are no snippets iff no line holds the query |
| ToolsServer.SearchShowsSnippet | truenas_mcp_tools_server.py:491-502 | a reported document with a newline-free query always shows at least one snippet |
| ToolsServer.FirstThree | truenas_mcp_tools_server.py:505 | `matching_lines[:3]`: the first at most three snippets |
| ToolsServer.CaptureTestOutput | truenas_mcp_tools_server.py:562-572 | the capture-flag scan gives the block from the first "test session starts" line to the first line with "passed" and "warnings", that last line twice |
| ToolsServer.LastLines | truenas_mcp_tools_server.py:578 | `lines[-50:]`: the last min(50, n) lines |
| ToolsServer.StatusLine | truenas_mcp_tools_server.py:551-554 | the status line is the success line iff the return code is 0 |
| ToolsServer.TestReportParts | truenas_mcp_tools_server.py:549-583 | status line, an output part iff stdout is non-empty, an errors part iff stderr is non-empty and the return code is non-zero; the output part is the captured pytest block, or the last 50 lines when nothing was captured |
| ToolsServer.FormatTestRun | truenas_mcp_tools_server.py:549-583 | the formatting code joins exactly those parts with newlines |
| ResourceServer.DocServer.constructor | truenas_mcp_server.py:39-62 | the cache starts empty and then holds every file's resources, in file order |
| ResourceServer.DocServer.ProcessDocumentation | truenas_mcp_server.py:74-112 | the filing loop writes every file's batch of resources, in order, on top of the old cache |
| ResourceServer.DocServer.FileDocument | truenas_mcp_server.py:84-110 | one loop turn writes exactly the batch of the file's category |
| ResourceServer.DocServer.CreateOverviewResources | truenas_mcp_server.py:114-135 | writes the overview batch |
| ResourceServer.DocServer.CreatePluginsOverview | truenas_mcp_server.py:137-166 | writes the plugins-overview batch |
| ResourceServer.DocServer.CreatePluginResource | truenas_mcp_server.py:168-179 | writes the plugin's resource |
| ResourceServer.DocServer.CreateApiResources | truenas_mcp_server.py:181-226 | writes the API batch |
| ResourceServer.DocServer.CreateTestingResources | truenas_mcp_server.py:228-249 | writes the testing batch |
| ResourceServer.DocServer.CreateSubsystemResource | truenas_mcp_server.py:251-263 | writes the subsystem's resource |
| ResourceServer.OverviewResourcesExist | truenas_mcp_server.py:114-135 | `truenas://overview` always exists with the 50-line summary of Purpose and Repository Structure; guidelines exist iff that section does, verbatim |
| ResourceServer.PluginsOverviewResourcesExist | truenas_mcp_server.py:137-166 | each of service-types, patterns and categories exists iff its section does, with the body verbatim |
| ResourceServer.PluginResourcesExist | truenas_mcp_server.py:168-179 | a plugin file makes exactly `truenas://plugins/<name>` holding the plugin summary |
| ResourceServer.ApiResourcesExist | truenas_mcp_server.py:181-226 | versioning exists iff Directory Structure or Migration Between Versions does; models, best-practices and patterns each exist iff their section does |
| ResourceServer.TestingResourcesExist | truenas_mcp_server.py:228-249 | `testing/overview` always exists; `testing/patterns` exists iff Common Patterns does |
| ResourceServer.SubsystemResourcesExist | truenas_mcp_server.py:251-263 | a subsystem file makes exactly `truenas://subsystems/<name>` holding the same summary as a plugin |
| ResourceServer.FileResources | truenas_mcp_server.py:84-110 | every resource a file makes is keyed by its own URI and is of a kind the file's category creates |
| ResourceServer.OverviewUriIsOverviewOnly | truenas_mcp_server.py:120 | no other kind of resource uses the overview's URI |
| ResourceServer.PluginNamedPatternsSharesKey | truenas_mcp_server.py:154-177 | a plugin named `patterns` and the plugin-patterns reference share one key |
| ResourceServer.OverviewOnlyFromRoot | truenas_mcp_server.py:84-87 | a file creates `truenas://overview` iff it is the root file |
| ResourceServer.OverviewIffRootFile | truenas_mcp_server.py:78-87 | after processing, `truenas://overview` exists iff some file sits at the root |
| ResourceServer.CachedIffCreated | truenas_mcp_server.py:78-110 | after processing, a URI is cached iff some file creates it |
| ResourceServer.FirstPresent | truenas_mcp_server.py:324-333 | the first listed section name that is present: no earlier name is present |
| ResourceServer.FirstSectionPart | truenas_mcp_server.py:324-333 | the loop with `break` gives the first present section, summarised, or nothing |
| ResourceServer.SummaryParts | truenas_mcp_server.py:315-335 | at most three parts; none iff Overview and every listed section are absent; Overview first when present, verbatim; then the first present of Architecture, Core Concepts, Key Concepts summarised to 30 lines; last the first present of the four operation sections summarised to 40 lines |
| ResourceServer.CreatePluginSummary | truenas_mcp_server.py:315-335 | computes the plugin summary: the parts joined by blank lines |
| ResourceServer.CreateSubsystemSummary | truenas_mcp_server.py:337-339 | the subsystem summary is the plugin summary of the same sections |
| ResourceServer.ListResources | truenas_mcp_server.py:341-362 | the listing has 1 + cache-size entries, the index first |
| ResourceServer.ListedAt | truenas_mcp_server.py:354-360 | entry i + 1 describes the i-th cached resource in cache order |
| ResourceServer.DocServer.HandleListResources | truenas_mcp_server.py:341-362 | the loop computes `ListResources` |
| ResourceServer.NoFilesOnlyIndex | truenas_mcp_server.py:341-362 | with no documentation files the cache is empty and the listing holds only the index |
| ResourceServer.ReadResource | truenas_mcp_server.py:364-373 | the index URI gives the index; any other URI gives text iff it is cached, that text being the stored content; otherwise `Resource not found: <uri>` is raised |
| ResourceServer.DocServer.HandleReadResource | truenas_mcp_server.py:364-373 | computes `ReadResource` |
| ResourceServer.ListedResourcesReadable | truenas_mcp_server.py:341-373 | every listed URI can be read |
| ResourceServer.IndexCategory | truenas_mcp_server.py:394-405 | the category of the first keyword, in order, that the URI contains; none when no keyword occurs |
| ResourceServer.TestingGuideListedUnderOverview | truenas_mcp_server.py:394-395 | `truenas://testing/overview` falls in the Overview category |
| ResourceServer.CategoryUrisExact | truenas_mcp_server.py:391-405 | a category holds a URI iff it is cached and the category is its first keyword |
| ResourceServer.CategoryUrisSorted | truenas_mcp_server.py:391 | taken from sorted URIs, a category's URIs stay sorted |
| ResourceServer.BucketExact | truenas_mcp_server.py:391-405 | a category lists exactly the entries of its cached URIs |
| ResourceServer.IndexCategorySorted | truenas_mcp_server.py:391-405 | within a category, entry j is the entry of the category's j-th URI, and those URIs are sorted |
| ResourceServer.GroupEntries | truenas_mcp_server.py:391-405 | the grouping loop fills each category with its bucket |
| ResourceServer.DocServer.GenerateIndex | truenas_mcp_server.py:375-413 | the index is the header followed by each non-empty category, in fixed order, with its heading and entries |
| ResourceServer.IndexListsResource | truenas_mcp_server.py:375-413 | every cached resource whose URI holds a keyword appears in the index text, under its first keyword's category |
| ResourceServer.IndexEntryIsResource | truenas_mcp_server.py:391-405 | every index entry names a cached resource of its category |

## Left out

- Finding and reading files (`_find_claude_md_files`, `rglob`, `read_text`, `relative_to`): the servers take a list of files, each given as its directories and its text. The list is taken to be in the order `sorted` gives the paths. Path sorting itself is not part of this model.
- MCP transport and registration: `Server`, the decorated handlers, `stdio_server`, `run` and `main`. These are library glue.
- The static tool schemas of `handle_list_tools`. Only the seven tool names are kept.
- Logging. It has no effect on results.
- async/await. Every handler is an ordinary sequential method, since no state is shared between concurrent calls.
- `_handle_run_tests_tool`'s process handling: the script-exists check, spawning, the 600-second timeout and UTF-8 decoding. The outcome of the run is a `TestRun` value supplied by the caller, and only the formatting is modelled. The `repo_path` and `test_file` arguments are used only to build the command, so they are not modelled.
- The catch-all `except Exception` of `handle_call_tool` ("Error: ..."). Arguments are modelled as a map of strings, so no handler can raise. Non-string argument values are not modelled.
- Unicode case mapping: `lower()` and `title()` are restricted to ASCII letters. `strip()` uses Python's full whitespace set.
- `ResourceServer.DocServer`: `name` and `description` are not stored in each cache entry. They are derived from the entry's `ResourceKind`, because every `_create_*` method writes fixed strings (or strings built from the plugin or subsystem name). The MIME type is always "text/plain".
- The unused `path` argument of `_cache_plugin_content` and `_create_plugin_resource`, the unused name argument of `_create_plugin_summary`, and the unused `sections` lookup in the search loop.
- `ToolsServer.SearchText`: its contract states the empty-query and no-hit answers and the header of a hit. The rest of the result text is given by its definition, with one block per reported document (`SearchBlocksPerHit`, `HitsExact`).
- `ResourceServer.ListResources`: the per-entry content of the listing is stated by the separate lemma `ListedAt`, not by the function's own contract.

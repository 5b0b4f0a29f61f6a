/** Where a documentation file sits in the docs tree, and the category both
    servers derive from that place (`_process_documentation`). */
module DocLayout {
  import opened Text

  /** The name every documentation file carries. */
  const DocFileName := "CLAUDE.md"

  /** One discovered file: the directories from the docs root down to it, and
      its text. */
  datatype DocFile = DocFile(dirs: seq<string>, content: string)

  /** `str(relative_path)`: the directories and the file name joined by `/`. */
  function PathString(dirs: seq<string>): string {
    Join("/", dirs + [DocFileName])
  }

  /** `relative_path.parent.name` for a file below the root. */
  function ParentName(dirs: seq<string>): string
    requires dirs != []
  {
    dirs[|dirs| - 1]
  }

  datatype Category =
    | Overview
    | PluginsOverview
    | Plugin(name: string)
    | Api
    | Testing
    | Subsystem(name: string)

  /** The chain of tests, in the order the source makes them: root file,
      then "plugins", "api" and "tests" anywhere in the path string. */
  function Categorize(dirs: seq<string>): (c: Category)
    ensures c == Overview <==> dirs == []
    ensures (c.PluginsOverview? || c.Plugin?) <==> dirs != [] && IsSubstring("plugins", PathString(dirs))
    ensures c.PluginsOverview? ==> ParentName(dirs) == "plugins"
    ensures c.Plugin? ==> c.name == ParentName(dirs) && c.name != "plugins"
    ensures c == Api <==> dirs != [] && !IsSubstring("plugins", PathString(dirs)) && IsSubstring("api", PathString(dirs))
    ensures c == Testing <==>
      dirs != [] && !IsSubstring("plugins", PathString(dirs)) && !IsSubstring("api", PathString(dirs)) &&
      IsSubstring("tests", PathString(dirs))
    ensures c.Subsystem? <==>
      dirs != [] && !IsSubstring("plugins", PathString(dirs)) && !IsSubstring("api", PathString(dirs)) &&
      !IsSubstring("tests", PathString(dirs))
    ensures c.Subsystem? ==> c.name == ParentName(dirs)
  {
    if dirs == [] then Overview
    else
      var path := PathString(dirs);
      if IsSubstring("plugins", path) then
        (if ParentName(dirs) == "plugins" then PluginsOverview else Plugin(ParentName(dirs)))
      else if IsSubstring("api", path) then Api
      else if IsSubstring("tests", path) then Testing
      else Subsystem(ParentName(dirs))
  }

  /** Any file whose directory is called `plugins`, at any depth, is the
      plugins overview; any other file below a `plugins` directory is the
      plugin named by its own directory. */
  lemma {:induction false} PluginDirectoryWins(dirs: seq<string>, i: nat)
    requires i < |dirs| && dirs[i] == "plugins"
    ensures Categorize(dirs) == (if ParentName(dirs) == "plugins" then PluginsOverview else Plugin(ParentName(dirs)))
  {
    JoinedPieceIsSubstring("/", dirs + [DocFileName], i);
  }

  /** Each piece of a join occurs in the joined text. */
  lemma {:induction false} JoinedPieceIsSubstring(sep: string, parts: seq<string>, i: nat)
    requires i < |parts|
    ensures IsSubstring(parts[i], Join(sep, parts))
    decreases |parts|
  {
    var s := Join(sep, parts);
    if i == 0 {
      if |parts| > 1 {
        assert s[0..|parts[0]|] == parts[0];
      }
      SubstringAt(parts[0], s, 0);
    } else {
      var rest := Join(sep, parts[1..]);
      JoinedPieceIsSubstring(sep, parts[1..], i - 1);
      var k := SubstringWitness(parts[i], rest);
      var off := |parts[0]| + |sep|;
      assert s == parts[0] + sep + rest;
      assert s[off + k..off + k + |parts[i]|] == rest[k..k + |parts[i]|];
      SubstringAt(parts[i], s, off + k);
    }
  }
}

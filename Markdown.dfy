/** The two markdown routines both servers share: splitting a document into its
    level-2 sections (`_extract_sections`) and shortening a long text while
    keeping its headers and highlighted lines (`_summarize_content`). */
module Markdown {
  import opened Text

  // ---------------------------------------------------------------------
  // Section extraction
  // ---------------------------------------------------------------------

  /** A line that opens a level-2 section. A `### ` line does not. */
  predicate IsHeading(line: string) {
    StartsWith(line, "## ")
  }

  /** The section title of a heading line: the text after `## `, stripped. */
  function HeadingTitle(line: string): string
    requires IsHeading(line)
  {
    Strip(line[3..])
  }

  /** A heading line opens a section only when its title is not empty. */
  predicate OpensSection(line: string) {
    IsHeading(line) && HeadingTitle(line) != ""
  }

  /** The first heading line at or after index j, or the end of the lines. */
  function NextHeading(lines: seq<string>, j: nat): (e: nat)
    requires j <= |lines|
    ensures j <= e <= |lines|
    ensures forall k :: j <= k < e ==> !IsHeading(lines[k])
    ensures e < |lines| ==> IsHeading(lines[e])
    decreases |lines| - j
  {
    if j == |lines| || IsHeading(lines[j]) then j else NextHeading(lines, j + 1)
  }

  /** The body of the section opened at line h: every line after it up to the
      next heading line, joined with newlines and stripped. */
  function SectionBody(lines: seq<string>, h: nat): string
    requires h < |lines|
  {
    Strip(Join("\n", lines[h + 1..NextHeading(lines, h + 1)]))
  }

  /** The sections opened among the first n lines, each title mapped to the
      body of the last section with that title. */
  function SectionsUpTo(lines: seq<string>, n: nat): map<string, string>
    requires n <= |lines|
    decreases n
  {
    if n == 0 then map[]
    else
      var m := SectionsUpTo(lines, n - 1);
      var line := lines[n - 1];
      if OpensSection(line) then m[HeadingTitle(line) := SectionBody(lines, n - 1)] else m
  }

  function SectionsOfLines(lines: seq<string>): map<string, string> {
    SectionsUpTo(lines, |lines|)
  }

  /** The section map of a document, its lines being `content.split('\n')`. */
  function SectionsOf(content: string): map<string, string> {
    SectionsOfLines(Split(content, '\n'))
  }

  /** `sections.get(name, "")` */
  function Section(sections: map<string, string>, name: string): string {
    if name in sections then sections[name] else ""
  }

  lemma {:induction false} NoHeadingsNoSections(lines: seq<string>, a: nat, b: nat)
    requires a <= b <= |lines|
    requires forall k :: a <= k < b ==> !IsHeading(lines[k])
    ensures SectionsUpTo(lines, b) == SectionsUpTo(lines, a)
    decreases b
  {
    if a < b {
      NoHeadingsNoSections(lines, a, b - 1);
    }
  }

  lemma {:induction false} NextHeadingIs(lines: seq<string>, j: nat, e: nat)
    requires j <= e <= |lines|
    requires forall k :: j <= k < e ==> !IsHeading(lines[k])
    requires e == |lines| || IsHeading(lines[e])
    ensures NextHeading(lines, j) == e
    decreases e - j
  {
    if j < e {
      NextHeadingIs(lines, j + 1, e);
    }
  }

  /** `_extract_sections`: one pass over the lines with the current title and
      the lines gathered for it. */
  method ExtractSections(content: string) returns (sections: map<string, string>)
    ensures sections == SectionsOf(content)
  {
    var lines := Split(content, '\n');
    sections := map[];
    var current := "";
    var gathered: seq<string> := [];
    ghost var h: int := -1;
    var i := 0;
    while i < |lines|
      invariant 0 <= i <= |lines|
      invariant -1 <= h < i
      invariant forall k :: h < k < i ==> !IsHeading(lines[k])
      invariant h < 0 ==> current == "" && sections == map[]
      invariant h >= 0 ==> IsHeading(lines[h]) && current == HeadingTitle(lines[h])
      invariant h >= 0 ==> sections == SectionsUpTo(lines, h)
      invariant current != "" ==> h >= 0 && gathered == lines[h + 1..i]
    {
      var line := lines[i];
      if StartsWith(line, "## ") {
        if h < 0 {
          NoHeadingsNoSections(lines, 0, i);
        } else {
          NoHeadingsNoSections(lines, h + 1, i);
          NextHeadingIs(lines, h + 1, i);
        }
        if current != "" {
          sections := sections[current := Strip(Join("\n", gathered))];
        }
        current := Strip(line[3..]);
        gathered := [];
        h := i;
      } else if current != "" {
        gathered := gathered + [line];
      }
      i := i + 1;
    }
    if h < 0 {
      NoHeadingsNoSections(lines, 0, i);
    } else {
      NoHeadingsNoSections(lines, h + 1, i);
      NextHeadingIs(lines, h + 1, i);
    }
    if current != "" {
      sections := sections[current := Strip(Join("\n", gathered))];
    }
  }

  /** A section exists exactly when some `## ` line carries its (non-empty,
      stripped) title. */
  lemma {:induction false} SectionKeys(lines: seq<string>, n: nat, title: string)
    requires n <= |lines|
    ensures title in SectionsUpTo(lines, n) <==>
            exists i :: 0 <= i < n && OpensSection(lines[i]) && HeadingTitle(lines[i]) == title
    decreases n
  {
    if n > 0 {
      SectionKeys(lines, n - 1, title);
    }
  }

  /** A title used by several headings keeps the body of the last of them. */
  lemma {:induction false} SectionValue(lines: seq<string>, n: nat, h: nat)
    requires h < n <= |lines|
    requires OpensSection(lines[h])
    requires forall i :: h < i < n && OpensSection(lines[i]) ==> HeadingTitle(lines[i]) != HeadingTitle(lines[h])
    ensures HeadingTitle(lines[h]) in SectionsUpTo(lines, n)
    ensures SectionsUpTo(lines, n)[HeadingTitle(lines[h])] == SectionBody(lines, h)
    decreases n
  {
    if h < n - 1 {
      SectionValue(lines, n - 1, h);
    }
  }

  /** A `### ` line never opens a section, so it stays in the enclosing body. */
  lemma SubheadingStaysInBody(line: string)
    requires StartsWith(line, "### ")
    ensures !IsHeading(line)
  {
    assert line[2] == '#';
  }

  /** Lines before the first heading belong to no section. */
  lemma {:induction false} PreambleIgnored(pre: seq<string>, rest: seq<string>)
    requires forall k :: 0 <= k < |pre| ==> !IsHeading(pre[k])
    ensures SectionsOfLines(pre + rest) == SectionsOfLines(rest)
  {
    var lines := pre + rest;
    NoHeadingsNoSections(lines, 0, |pre|);
    ShiftedSections(pre, rest, |rest|);
  }

  lemma {:induction false} ShiftedSections(pre: seq<string>, rest: seq<string>, n: nat)
    requires n <= |rest|
    requires SectionsUpTo(pre + rest, |pre|) == map[]
    ensures SectionsUpTo(pre + rest, |pre| + n) == SectionsUpTo(rest, n)
    decreases n
  {
    if n > 0 {
      var lines := pre + rest;
      ShiftedSections(pre, rest, n - 1);
      assert lines[|pre| + n - 1] == rest[n - 1];
      if OpensSection(rest[n - 1]) {
        ShiftedBody(pre, rest, n - 1);
      }
    }
  }

  lemma ShiftedBody(pre: seq<string>, rest: seq<string>, h: nat)
    requires h < |rest|
    ensures SectionBody(pre + rest, |pre| + h) == SectionBody(rest, h)
  {
    var lines := pre + rest;
    var e := NextHeading(rest, h + 1);
    forall k | |pre| + h + 1 <= k < |pre| + e ensures !IsHeading(lines[k]) {
      assert lines[k] == rest[k - |pre|];
    }
    if e < |rest| {
      assert lines[|pre| + e] == rest[e];
    }
    NextHeadingIs(lines, |pre| + h + 1, |pre| + e);
    assert lines[|pre| + h + 1..|pre| + e] == rest[h + 1..e];
  }

  // ---------------------------------------------------------------------
  // Summarising
  // ---------------------------------------------------------------------

  /** A code fence line: ``` after leading whitespace. */
  predicate IsFence(line: string) {
    StartsWith(Strip(line), "```")
  }

  /** A line that is always kept: a header, a bold list item or a bold line. */
  predicate IsMarker(line: string) {
    StartsWith(line, "#") || StartsWith(line, "- **") || StartsWith(Strip(line), "**")
  }

  /** The loop state of `_summarize_content`. */
  datatype SummaryState = SummaryState(inCode: bool, blocks: nat, kept: seq<string>)

  /** Whether a line is appended, given whether we are inside a code block. */
  predicate Keeps(line: string, inCode: bool, keptSoFar: nat, maxLines: nat) {
    IsMarker(line) || (!inCode && keptSoFar < maxLines)
  }

  /** One iteration of the loop. Fence lines toggle the code-block flag, and
      once more than two blocks have been opened every fence line is skipped. */
  function SummaryStep(st: SummaryState, line: string, maxLines: nat): SummaryState {
    if IsFence(line) then
      var inCode := !st.inCode;
      var blocks := if inCode then st.blocks + 1 else st.blocks;
      if blocks > 2 then SummaryState(inCode, blocks, st.kept)
      else if Keeps(line, inCode, |st.kept|, maxLines) then SummaryState(inCode, blocks, st.kept + [line])
      else SummaryState(inCode, blocks, st.kept)
    else if Keeps(line, st.inCode, |st.kept|, maxLines) then SummaryState(st.inCode, st.blocks, st.kept + [line])
    else st
  }

  /** The loop state after the given lines. */
  function SummaryRun(lines: seq<string>, maxLines: nat): SummaryState
    decreases |lines|
  {
    if lines == [] then SummaryState(false, 0, [])
    else SummaryStep(SummaryRun(lines[..|lines| - 1], maxLines), lines[|lines| - 1], maxLines)
  }

  /** The text `_summarize_content(content, maxLines)` returns. */
  function SummaryOf(content: string, maxLines: nat): (r: string)
    ensures |Split(content, '\n')| <= maxLines ==> r == content
  {
    var lines := Split(content, '\n');
    if |lines| <= maxLines then content else Join("\n", SummaryRun(lines, maxLines).kept)
  }

  /** `_summarize_content` */
  method Summarize(content: string, maxLines: nat) returns (summary: string)
    ensures summary == SummaryOf(content, maxLines)
  {
    var lines := Split(content, '\n');
    if |lines| <= maxLines {
      return content;
    }
    var kept: seq<string> := [];
    var inCode := false;
    var blocks := 0;
    var i := 0;
    while i < |lines|
      invariant 0 <= i <= |lines|
      invariant SummaryState(inCode, blocks, kept) == SummaryRun(lines[..i], maxLines)
    {
      var line := lines[i];
      assert lines[..i + 1][..i] == lines[..i];
      var skip := false;
      if StartsWith(Strip(line), "```") {
        inCode := !inCode;
        if inCode {
          blocks := blocks + 1;
        }
        skip := blocks > 2;
      }
      if !skip && (StartsWith(line, "#") || StartsWith(line, "- **") ||
                   StartsWith(Strip(line), "**") || (!inCode && |kept| < maxLines)) {
        kept := kept + [line];
      }
      i := i + 1;
    }
    assert lines[..i] == lines;
    summary := Join("\n", kept);
  }

  /** `a` is an in-order subsequence of `b`. */
  ghost predicate Subsequence(a: seq<string>, b: seq<string>)
    decreases |b|
  {
    |a| <= |b| &&
    (|a| == 0 ||
     (a[|a| - 1] == b[|b| - 1] && Subsequence(a[..|a| - 1], b[..|b| - 1])) ||
     Subsequence(a, b[..|b| - 1]))
  }

  /** The lines that are always kept, in order. */
  function Markers(lines: seq<string>): (r: seq<string>)
    ensures |r| <= |lines|
    decreases |lines|
  {
    if lines == [] then []
    else
      var init := Markers(lines[..|lines| - 1]);
      if IsMarker(lines[|lines| - 1]) then init + [lines[|lines| - 1]] else init
  }

  lemma MarkersAppend(lines: seq<string>, line: string)
    ensures Markers(lines + [line]) == Markers(lines) + (if IsMarker(line) then [line] else [])
  {
    assert (lines + [line])[..|lines|] == lines;
  }

  /** A marker line is never a fence line, so the skip of late fences never
      drops it. */
  lemma MarkerIsNotFence(line: string)
    requires IsMarker(line)
    ensures !IsFence(line)
  {
    if StartsWith(line, "#") {
      StripKeepsPrefix(line, "#");
      assert Strip(line)[..1] == "#";
    } else if StartsWith(line, "- **") {
      assert line[..1] == "-";
      StripKeepsPrefix(line, "-");
      assert Strip(line)[..1] == "-";
      assert Strip(line)[0] == '-';
    } else {
      assert Strip(line)[..2] == "**";
      assert Strip(line)[0] == '*';
    }
  }

  /** The summary's lines are an in-order subsequence of the input's lines. */
  lemma {:induction false} SummaryIsSubsequence(lines: seq<string>, maxLines: nat)
    ensures Subsequence(SummaryRun(lines, maxLines).kept, lines)
    decreases |lines|
  {
    if lines != [] {
      var init := lines[..|lines| - 1];
      var last := lines[|lines| - 1];
      SummaryIsSubsequence(init, maxLines);
      var before := SummaryRun(init, maxLines).kept;
      var after := SummaryRun(lines, maxLines).kept;
      if after == before {
        assert lines[..|lines| - 1] == init;
      } else {
        assert after == before + [last];
        assert after[..|after| - 1] == before;
      }
    }
  }

  /** Every marker line of the input is kept: the summary's markers are the
      input's markers. */
  lemma {:induction false} SummaryKeepsMarkers(lines: seq<string>, maxLines: nat)
    ensures Markers(SummaryRun(lines, maxLines).kept) == Markers(lines)
    decreases |lines|
  {
    if lines != [] {
      var init := lines[..|lines| - 1];
      var last := lines[|lines| - 1];
      assert lines == init + [last];
      SummaryKeepsMarkers(init, maxLines);
      var before := SummaryRun(init, maxLines).kept;
      var after := SummaryRun(lines, maxLines).kept;
      MarkersAppend(init, last);
      MarkersAppend(before, last);
      StepKeepsMarker(SummaryRun(init, maxLines), last, maxLines);
      if after == before {
        assert !IsMarker(last);
      }
    }
  }

  /** One step keeps the line or drops it, and always keeps a marker. */
  lemma StepKeepsMarker(st: SummaryState, line: string, maxLines: nat)
    ensures SummaryStep(st, line, maxLines).kept in {st.kept, st.kept + [line]}
    ensures IsMarker(line) ==> SummaryStep(st, line, maxLines).kept == st.kept + [line]
  {
    if IsMarker(line) {
      MarkerIsNotFence(line);
    }
  }

  /** Lines that are neither markers nor fences are kept only while fewer than
      maxLines lines have been kept, so the summary has at most maxLines lines
      besides the markers. */
  lemma {:induction false} SummaryBound(lines: seq<string>, maxLines: nat)
    ensures |SummaryRun(lines, maxLines).kept| <= maxLines + |Markers(lines)|
    decreases |lines|
  {
    if lines != [] {
      var init := lines[..|lines| - 1];
      var last := lines[|lines| - 1];
      assert lines == init + [last];
      SummaryBound(init, maxLines);
      MarkersAppend(init, last);
    }
  }

  /** Plain text without markers or fences is cut to its first maxLines lines. */
  lemma {:induction false} SummaryOfPlainLines(lines: seq<string>, maxLines: nat)
    requires forall i :: 0 <= i < |lines| ==> !IsMarker(lines[i]) && !IsFence(lines[i])
    ensures !SummaryRun(lines, maxLines).inCode
    ensures SummaryRun(lines, maxLines).kept == lines[..if |lines| < maxLines then |lines| else maxLines]
    decreases |lines|
  {
    if lines != [] {
      var init := lines[..|lines| - 1];
      SummaryOfPlainLines(init, maxLines);
      if |lines| <= maxLines {
        assert lines[..|lines|] == init + [lines[|lines| - 1]];
      } else {
        assert init[..maxLines] == lines[..maxLines];
      }
    }
  }

  /** The same at the level of the text: a long plain text summarises to its
      first maxLines lines. */
  lemma SummaryOfPlainText(content: string, maxLines: nat)
    requires forall l :: l in Split(content, '\n') ==> !IsMarker(l) && !IsFence(l)
    requires |Split(content, '\n')| > maxLines
    ensures SummaryOf(content, maxLines) == Join("\n", Split(content, '\n')[..maxLines])
  {
    var lines := Split(content, '\n');
    assert forall i :: 0 <= i < |lines| ==> lines[i] in lines;
    SummaryOfPlainLines(lines, maxLines);
  }
}

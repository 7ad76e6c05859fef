/** The text parts of the report formatter (bugtrace/report/report_formatter.py): the
    Markdown export, and the bodies of the "Files & Relevant Lines" and "Files Analyzed"
    panels. Printing through rich and writing the file are effects and are not
    modelled: each operation returns the text it would print or write, or `None` when
    it returns without printing. */
module ReportFormatter {
  import opened Strings
  import opened PyValue
  import ContextBuilder

  type Snippet = ContextBuilder.Snippet

  /** The analysis result dict as `export_markdown` reads it: `query` and `response`
      may be missing; a missing `metadata` is empty, and a missing `context` or
      `code_snippets` is the empty snippet list. */
  datatype AnalysisResult =
    AnalysisResult(query: Option<string>, metadata: Dict, response: Option<string>, snippets: seq<Snippet>)

  const ReportTitle := "# \U{1F41B} Bug Analysis Report"

  // ----- `key.replace('_', ' ').title()` -----

  /** `s.replace('_', ' ')` */
  function Spaced(s: string): (r: string)
    ensures |r| == |s|
  {
    seq(|s|, i requires 0 <= i < |s| => if s[i] == '_' then ' ' else s[i])
  }

  predicate IsUpper(c: char) { 'A' <= c <= 'Z' }
  predicate IsLower(c: char) { 'a' <= c <= 'z' }

  /** Whether position `i` of `s` starts a run of letters. */
  predicate WordStart(s: string, i: int)
    requires 0 <= i < |s|
  {
    IsAlpha(s[i]) && (i == 0 || !IsAlpha(s[i - 1]))
  }

  /** `s.title()`, restricted to the ASCII letters. */
  function TitleCase(s: string): (r: string)
    ensures |r| == |s|
  {
    seq(|s|, i requires 0 <= i < |s| => if WordStart(s, i) then UpperChar(s[i]) else LowerChar(s[i]))
  }

  /** Title case capitalises the first letter of every run of letters, lowers the other
      letters and leaves every other character alone. */
  lemma TitleCaseLetters(s: string, i: int)
    requires 0 <= i < |s|
    ensures IsAlpha(TitleCase(s)[i]) <==> IsAlpha(s[i])
    ensures WordStart(s, i) ==> IsUpper(TitleCase(s)[i]) && LowerChar(TitleCase(s)[i]) == LowerChar(s[i])
    ensures IsAlpha(s[i]) && !WordStart(s, i) ==> IsLower(TitleCase(s)[i]) && TitleCase(s)[i] == LowerChar(s[i])
    ensures !IsAlpha(s[i]) ==> TitleCase(s)[i] == s[i]
  {
  }

  /** Title-casing twice is title-casing once. */
  lemma TitleCaseIdempotent(s: string)
    ensures TitleCase(TitleCase(s)) == TitleCase(s)
  {
    var t := TitleCase(s);
    forall i | 0 <= i < |s| ensures TitleCase(t)[i] == t[i] {
      TitleCaseLetters(s, i);
      if i > 0 { TitleCaseLetters(s, i - 1); }
      assert WordStart(t, i) <==> WordStart(s, i);
    }
  }

  // ----- `export_markdown` -----

  /** One "Analysis Info" bullet. */
  function InfoBullet(key: string, value: Value): string {
    "- **" + TitleCase(Spaced(key)) + ":** " + Str(value)
  }

  function InfoBullets(md: Dict): (lines: seq<string>)
    ensures |lines| == |md|
    ensures forall i | 0 <= i < |md| :: lines[i] == InfoBullet(md[i].0, md[i].1)
  {
    seq(|md|, i requires 0 <= i < |md| => InfoBullet(md[i].0, md[i].1))
  }

  /** The files of the snippets, in snippet order. */
  function SnippetFiles(snippets: seq<Snippet>): (files: seq<string>)
    ensures |files| == |snippets|
    ensures forall i | 0 <= i < |snippets| :: files[i] == snippets[i].file
  {
    seq(|snippets|, i requires 0 <= i < |snippets| => snippets[i].file)
  }

  function FileBullets(files: seq<string>): (lines: seq<string>)
    ensures |lines| == |files|
    ensures forall i | 0 <= i < |files| :: lines[i] == "- `" + files[i] + "`"
  {
    seq(|files|, i requires 0 <= i < |files| => "- `" + files[i] + "`")
  }

  function HeaderLines(query: Option<string>): seq<string> {
    [ReportTitle, "", "**Query:** " + query.GetOr("Unknown"), ""]
  }

  function InfoSection(md: Dict): seq<string> {
    if md != [] then ["## Analysis Info", ""] + InfoBullets(md) + [""] else []
  }

  function AnalysisSection(response: Option<string>): seq<string> {
    ["## Analysis", "", response.GetOr("No response"), ""]
  }

  function FilesSection(snippets: seq<Snippet>): seq<string> {
    if snippets != [] then ["## Files Analyzed", ""] + FileBullets(SortedSet(SnippetFiles(snippets))) + [""] else []
  }

  /** The lines `export_markdown` collects. */
  function ExportLines(r: AnalysisResult): seq<string> {
    HeaderLines(r.query) + InfoSection(r.metadata) + AnalysisSection(r.response) + FilesSection(r.snippets)
  }

  /** The text `export_markdown` writes to the output file. */
  function ExportMarkdown(r: AnalysisResult): string {
    Join(ExportLines(r), "\n")
  }

  /** Where the parts of four concatenated lists land. */
  lemma FourParts<T>(a: seq<T>, b: seq<T>, c: seq<T>, d: seq<T>)
    ensures var all := a + b + c + d;
            && all[..|a|] == a
            && all[|a|..|a| + |b|] == b
            && all[|a| + |b|..|a| + |b| + |c|] == c
            && all[|a| + |b| + |c|..] == d
  {
    var all := a + b + c + d;
    assert all == a + (b + (c + d));
    assert all[|a|..] == b + (c + d);
    assert all[|a| + |b|..] == c + d;
  }

  /** The report opens with the title and the query, 'Unknown' when missing; then
      come the info section (possibly empty), the "Analysis" section with the response
      ('No response' when missing), and the files section (possibly empty). */
  lemma ExportLayout(r: AnalysisResult)
    ensures var lines := ExportLines(r);
            var k := |InfoSection(r.metadata)|;
            && 8 + k <= |lines|
            && lines[..4] == [ReportTitle, "", "**Query:** " + (if r.query.Some? then r.query.value else "Unknown"), ""]
            && lines[4..4 + k] == InfoSection(r.metadata)
            && lines[4 + k..8 + k] == ["## Analysis", "", if r.response.Some? then r.response.value else "No response", ""]
            && lines[8 + k..] == FilesSection(r.snippets)
  {
    FourParts(HeaderLines(r.query), InfoSection(r.metadata), AnalysisSection(r.response), FilesSection(r.snippets));
  }

  /** The info section is there only for non-empty metadata: a heading, a blank line,
      one bullet per entry in dict order, and a blank line. */
  lemma InfoSectionLayout(md: Dict)
    ensures var info := InfoSection(md);
            && |info| == (if md == [] then 0 else |md| + 3)
            && (md != [] ==> info[0] == "## Analysis Info" && info[1] == "" && info[|info| - 1] == "")
            && (forall i | 0 <= i < |md| :: info[2 + i] == InfoBullet(md[i].0, md[i].1))
  {
  }

  /** The files section is there only when there are snippets: a heading, a blank
      line, one bullet per distinct snippet file in sorted order, and a blank line. */
  lemma FilesSectionLayout(snippets: seq<Snippet>, f: string)
    ensures var part := FilesSection(snippets);
            var files := SortedSet(SnippetFiles(snippets));
            && |part| == (if snippets == [] then 0 else |files| + 3)
            && (snippets != [] ==> part[0] == "## Files Analyzed" && part[1] == "" && part[|part| - 1] == "")
            && (snippets != [] ==> forall i | 0 <= i < |files| :: part[2 + i] == "- `" + files[i] + "`")
            && StrictlySorted(files)
            && (f in files <==> exists i | 0 <= i < |snippets| :: snippets[i].file == f)
  {
    var files := SortedSet(SnippetFiles(snippets));
    BulletSection(files);
    ListedFiles(snippets, f);
  }

  lemma BulletSection(files: seq<string>)
    ensures var part := ["## Files Analyzed", ""] + FileBullets(files) + [""];
            && |part| == |files| + 3
            && part[0] == "## Files Analyzed" && part[1] == "" && part[|part| - 1] == ""
            && forall i | 0 <= i < |files| :: part[2 + i] == "- `" + files[i] + "`"
  {
  }

  /** The files listed: sorted, without duplicates, and exactly the snippets' files. */
  lemma ListedFiles(snippets: seq<Snippet>, f: string)
    ensures var files := SortedSet(SnippetFiles(snippets));
            && StrictlySorted(files)
            && (f in files <==> exists i | 0 <= i < |snippets| :: snippets[i].file == f)
  {
    var files := SortedSet(SnippetFiles(snippets));
    assert f in files <==> f in Elems(SnippetFiles(snippets));
    if f in SnippetFiles(snippets) {
      var i :| 0 <= i < |snippets| && SnippetFiles(snippets)[i] == f;
    }
  }

  // ----- `_display_file_locations` -----

  /** The dedup key of a snippet: its file and its `lines` value. */
  function LocationKey(s: Snippet): (string, Option<string>) {
    (s.file, s.lines)
  }

  /** The keys the loop keeps: snippets with a file, each key once, in first-seen order. */
  function LocationKeys(snippets: seq<Snippet>): seq<(string, Option<string>)> {
    if snippets == [] then []
    else
      var prev := LocationKeys(snippets[..|snippets| - 1]);
      var s := snippets[|snippets| - 1];
      if s.file == "" || LocationKey(s) in prev then prev else prev + [LocationKey(s)]
  }

  /** The kept keys are distinct, and they are exactly the keys of the snippets that
      have a file. */
  lemma {:induction false} LocationKeysSpec(snippets: seq<Snippet>, key: (string, Option<string>))
    ensures var keys := LocationKeys(snippets);
            && (forall i, j | 0 <= i < j < |keys| :: keys[i] != keys[j])
            && (key in keys <==> key.0 != "" && exists i | 0 <= i < |snippets| :: LocationKey(snippets[i]) == key)
    decreases |snippets|
  {
    if snippets != [] {
      var n := |snippets| - 1;
      var prefix := snippets[..n];
      LocationKeysSpec(prefix, key);
      forall i | 0 <= i < n ensures prefix[i] == snippets[i] { }
      if exists i | 0 <= i < |snippets| :: LocationKey(snippets[i]) == key {
        var i :| 0 <= i < |snippets| && LocationKey(snippets[i]) == key;
        if i < n { assert LocationKey(prefix[i]) == key; }
      }
    }
  }

  /** One panel line: the file, with ":lines" when the range is non-empty. */
  function LocationLine(key: (string, Option<string>)): string {
    var (file, range) := key;
    if range.Some? && range.value != "" then "\U{1F4C4} [bold]" + file + ":" + range.value + "[/bold]"
    else "\U{1F4C4} [bold]" + file + "[/bold]"
  }

  function LocationLines(keys: seq<(string, Option<string>)>): (lines: seq<string>)
    ensures |lines| == |keys|
    ensures forall i | 0 <= i < |keys| :: lines[i] == LocationLine(keys[i])
  {
    seq(|keys|, i requires 0 <= i < |keys| => LocationLine(keys[i]))
  }

  /** The body of the "Files & Relevant Lines" panel; `None` when there are no snippets. */
  function FileLocations(snippets: seq<Snippet>): Option<string> {
    if snippets == [] then None else Some(Join(LocationLines(LocationKeys(snippets)), "\n"))
  }

  /** The "Files & Relevant Lines" panel shows one line for the location of every
      snippet that has a file, and nothing else; it is absent without snippets. */
  lemma FileLocationsShowSnippets(snippets: seq<Snippet>)
    ensures FileLocations(snippets).None? <==> snippets == []
    ensures var lines := LocationLines(LocationKeys(snippets));
            && (snippets != [] ==> FileLocations(snippets) == Some(Join(lines, "\n")))
            && (forall i | 0 <= i < |snippets| && snippets[i].file != "" :: LocationLine(LocationKey(snippets[i])) in lines)
            && (forall l | l in lines :: exists i | 0 <= i < |snippets| ::
                  snippets[i].file != "" && l == LocationLine(LocationKey(snippets[i])))
  {
    var keys := LocationKeys(snippets);
    var lines := LocationLines(keys);
    forall i | 0 <= i < |snippets| && snippets[i].file != "" ensures LocationLine(LocationKey(snippets[i])) in lines {
      var key := LocationKey(snippets[i]);
      LocationKeysSpec(snippets, key);
      var j :| 0 <= j < |keys| && keys[j] == key;
      assert lines[j] == LocationLine(key);
    }
    forall l | l in lines ensures exists i | 0 <= i < |snippets| ::
                                    snippets[i].file != "" && l == LocationLine(LocationKey(snippets[i])) {
      var j :| 0 <= j < |lines| && lines[j] == l;
      LocationKeysSpec(snippets, keys[j]);
      var i :| 0 <= i < |snippets| && LocationKey(snippets[i]) == keys[j];
      assert snippets[i].file == keys[j].0;
    }
  }

  // ----- `display_files_analyzed` -----

  /** The `files` dict the loop builds: every snippet's file, in first-seen order,
      with the functions of its snippets appended in snippet order. */
  function Group(snippets: seq<Snippet>): seq<(string, seq<Scalar>)> {
    if snippets == [] then []
    else
      var prev := Group(snippets[..|snippets| - 1]);
      var s := snippets[|snippets| - 1];
      var fns := Get(prev, s.file).GetOr([]);
      Put(prev, s.file, if s.functionName.Some? then fns + [s.functionName.value] else fns)
  }

  /** The files of the snippets. */
  function FileSet(snippets: seq<Snippet>): set<string> {
    set i | 0 <= i < |snippets| :: snippets[i].file
  }

  /** The functions of the snippets in `file`, in snippet order. */
  function Functions(snippets: seq<Snippet>, file: string): seq<Scalar> {
    if snippets == [] then []
    else
      var s := snippets[|snippets| - 1];
      Functions(snippets[..|snippets| - 1], file)
      + (if s.file == file && s.functionName.Some? then [s.functionName.value] else [])
  }

  lemma FileSetSnoc(snippets: seq<Snippet>)
    requires snippets != []
    ensures FileSet(snippets) == FileSet(snippets[..|snippets| - 1]) + {snippets[|snippets| - 1].file}
  {
    var n := |snippets| - 1;
    var prefix := snippets[..n];
    forall f | f in FileSet(snippets) ensures f in FileSet(prefix) + {snippets[n].file} {
      var i :| 0 <= i < |snippets| && snippets[i].file == f;
      if i < n { assert prefix[i].file == f; }
    }
    forall f | f in FileSet(prefix) ensures f in FileSet(snippets) {
      var i :| 0 <= i < n && prefix[i].file == f;
      assert snippets[i].file == f;
    }
  }

  /** A file no snippet comes from has no functions. */
  lemma {:induction false} FunctionsOutside(snippets: seq<Snippet>, file: string)
    requires file !in FileSet(snippets)
    ensures Functions(snippets, file) == []
    decreases |snippets|
  {
    if snippets != [] {
      FileSetSnoc(snippets);
      FunctionsOutside(snippets[..|snippets| - 1], file);
    }
  }

  /** The dict has an entry exactly for each snippet file, holding that file's
      functions in snippet order. */
  lemma {:induction false} GroupLookup(snippets: seq<Snippet>, file: string)
    ensures Get(Group(snippets), file) == if file in FileSet(snippets) then Some(Functions(snippets, file)) else None
    decreases |snippets|
  {
    if snippets != [] {
      var n := |snippets| - 1;
      var prefix := snippets[..n];
      var s := snippets[n];
      var prev := Group(prefix);
      var fns := Get(prev, s.file).GetOr([]);
      var next := if s.functionName.Some? then fns + [s.functionName.value] else fns;
      assert Group(snippets) == Put(prev, s.file, next);
      FileSetSnoc(snippets);
      GetPut(prev, s.file, next, file);
      if file == s.file {
        GroupLookup(prefix, file);
        if file !in FileSet(prefix) {
          FunctionsOutside(prefix, file);
        }
        assert fns == Functions(prefix, file);
        assert Functions(snippets, file) == next;
        assert Get(Group(snippets), file) == Some(next);
      } else {
        GroupLookup(prefix, file);
        assert Functions(snippets, file) == Functions(prefix, file);
        assert Get(Group(snippets), file) == Get(prev, file);
      }
    }
  }

  /** The panel lines for `files`, each file followed by its functions. */
  function PanelLines(files: seq<string>, functionsOf: string -> seq<Scalar>): seq<string> {
    if files == [] then []
    else
      var f := files[|files| - 1];
      PanelLines(files[..|files| - 1], functionsOf) + ["[bold]" + f + "[/bold]"] + FunctionLines(functionsOf(f))
  }

  function FunctionLines(fns: seq<Scalar>): (lines: seq<string>)
    ensures |lines| == |fns|
    ensures forall i | 0 <= i < |fns| :: lines[i] == "  \U{2022} " + ScalarStr(fns[i]) + "()"
  {
    seq(|fns|, i requires 0 <= i < |fns| => "  \U{2022} " + ScalarStr(fns[i]) + "()")
  }

  /** The body of the "Files Analyzed" panel: the dict's items in sorted key order.
      `None` when there are no snippets. */
  function FilesAnalyzed(snippets: seq<Snippet>): Option<string> {
    if snippets == [] then None
    else
      var groups := Group(snippets);
      Some(Join(PanelLines(SortedSet(Keys(groups)), f => Get(groups, f).GetOr([])), "\n"))
  }

  /** Panel lines depend only on the functions of the files listed. */
  lemma {:induction false} PanelLinesAgree(files: seq<string>, g: string -> seq<Scalar>, h: string -> seq<Scalar>)
    requires forall i | 0 <= i < |files| :: g(files[i]) == h(files[i])
    ensures PanelLines(files, g) == PanelLines(files, h)
    decreases |files|
  {
    if files != [] {
      PanelLinesAgree(files[..|files| - 1], g, h);
    }
  }

  /** The panel lists the distinct snippet files in sorted order, each followed by the
      functions of its snippets in snippet order. */
  lemma FilesAnalyzedSpec(snippets: seq<Snippet>)
    requires snippets != []
    ensures var files := SortedSet(SnippetFiles(snippets));
            && StrictlySorted(files)
            && Elems(files) == FileSet(snippets)
            && FilesAnalyzed(snippets) == Some(Join(PanelLines(files, f => Functions(snippets, f)), "\n"))
  {
    var groups := Group(snippets);
    var files := SortedSet(SnippetFiles(snippets));
    assert Elems(files) == FileSet(snippets) by {
      forall f | f in FileSet(snippets) ensures f in Elems(SnippetFiles(snippets)) {
        var i :| 0 <= i < |snippets| && snippets[i].file == f;
        assert SnippetFiles(snippets)[i] == f;
      }
    }
    assert Elems(Keys(groups)) == FileSet(snippets) by {
      forall f ensures f in Keys(groups) <==> f in FileSet(snippets) {
        GroupLookup(snippets, f);
        KeysHas(groups, f);
      }
    }
    SortedUnique(SortedSet(Keys(groups)), files);
    forall i | 0 <= i < |files| ensures Get(groups, files[i]).GetOr([]) == Functions(snippets, files[i]) {
      GroupLookup(snippets, files[i]);
    }
    PanelLinesAgree(files, f => Get(groups, f).GetOr([]), f => Functions(snippets, f));
  }

  lemma KeysHas<V>(d: seq<(string, V)>, k: string)
    ensures k in Keys(d) <==> Has(d, k)
  {
    if k in Keys(d) {
      var i :| 0 <= i < |d| && Keys(d)[i] == k;
    }
    if Has(d, k) {
      var i :| 0 <= i < |d| && d[i].0 == k;
      assert Keys(d)[i] == k;
    }
  }
}

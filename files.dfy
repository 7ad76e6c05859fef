/** Where `--export-md` writes the report (bugtrace/utils/files.py). The file-system
    queries, the clock, `~` expansion and `Path.resolve` are inputs: `expand` parses and
    expands the argument, `isDir` says whether a directory exists at a path, `now` is the
    local time and `resolve` makes a path absolute. Creating the parent directory is an
    effect and is not modelled. */
module Files {
  import opened Strings
  import Fs

  datatype Timestamp = Timestamp(year: nat, month: nat, day: nat, hour: nat, minute: nat, second: nat)

  /** `now.strftime('%Y%m%d-%H%M%S')` */
  function Stamp(t: Timestamp): string {
    Pad(t.year, 4) + Pad(t.month, 2) + Pad(t.day, 2) + "-" + Pad(t.hour, 2) + Pad(t.minute, 2) + Pad(t.second, 2)
  }

  /** The generated report file name. */
  function ReportName(t: Timestamp): string {
    "bugtrace-report-" + Stamp(t) + ".md"
  }

  /** `name` without its suffix: `PurePath(name).stem` for a non-empty name. */
  function Stem(name: string): string {
    name[..|name| - |Suffix(name)|]
  }

  /** `path.with_suffix(suffix)`: the last part's suffix replaced (or added); `None`
      where Python raises ValueError because the path has an empty name. */
  function WithSuffix(p: Fs.Path, suffix: string): Option<Fs.Path> {
    var name := Fs.Name(p);
    if name == "" then None else Some(p[..|p| - 1] + [Stem(name) + suffix])
  }

  datatype Outcome = Resolved(path: Fs.Path) | EmptyName

  /** The path `resolve_markdown_path` settles on, before the final `resolve()`. */
  function Target(exportMd: Option<string>, cwd: Fs.Path, now: Timestamp,
                  expand: string -> Fs.Path, isDir: Fs.Path -> bool): Outcome
  {
    if exportMd.None? then Resolved(cwd + [ReportName(now)])
    else
      var path := expand(exportMd.value);
      if isDir(path) then Resolved(path + [ReportName(now)])
      else if Suffix(Fs.Name(path)) == ".md" then Resolved(path)
      else
        var p := WithSuffix(path, ".md");
        if p.Some? then Resolved(p.value) else EmptyName
  }

  /** `resolve_markdown_path(export_md)`: a generated name goes into the current or the
      given directory as is; an explicit file path is resolved. */
  function ResolveMarkdownPath(exportMd: Option<string>, cwd: Fs.Path, now: Timestamp,
                               expand: string -> Fs.Path, isDir: Fs.Path -> bool,
                               resolve: Fs.Path -> Fs.Path): Outcome
  {
    var t := Target(exportMd, cwd, now, expand, isDir);
    if t.Resolved? && exportMd.Some? && !isDir(expand(exportMd.value)) then Resolved(resolve(t.path)) else t
  }

  /** The generated name is one path part (no '/'), starts with "bugtrace-report-",
      and its suffix is ".md". */
  lemma ReportNameShape(t: Timestamp)
    ensures var name := ReportName(t);
            && StartsWith(name, "bugtrace-report-")
            && (forall i | 0 <= i < |name| :: name[i] != '/')
            && Suffix(name) == ".md"
  {
    var name := ReportName(t);
    var stamp := Stamp(t);
    assert forall i | 0 <= i < |stamp| :: IsDigit(stamp[i]) || stamp[i] == '-';
    var n := |name|;
    assert name[n - 3] == '.' && name[n - 2] == 'm' && name[n - 1] == 'd';
    assert LastIndexOf(name, '.') == n - 3 by {
      assert name[..n - 1][..n - 2] == name[..n - 2];
    }
    assert name[n - 3..] == ".md";
  }

  /** A suffix has no dot after its first character, so ".md" is its own suffix when
      something comes before it. */
  lemma SuffixOfMd(stem: string)
    requires stem != []
    ensures Suffix(stem + ".md") == ".md"
  {
    var name := stem + ".md";
    var n := |name|;
    assert name[n - 1] == 'd' && name[n - 2] == 'm' && name[n - 3] == '.';
    assert name[..n - 1][..n - 2] == name[..n - 2];
    assert LastIndexOf(name[..n - 2], '.') == n - 3;
    assert LastIndexOf(name, '.') == n - 3;
    assert name[n - 3..] == ".md";
  }

  /** `with_suffix(".md")` keeps the directory and the stem and makes the suffix ".md":
      an old suffix is replaced, not kept. */
  lemma WithSuffixMd(p: Fs.Path)
    requires Fs.Name(p) != ""
    ensures var q := WithSuffix(p, ".md");
            && q.Some? && |q.value| == |p| && q.value[..|p| - 1] == p[..|p| - 1]
            && Stem(Fs.Name(q.value)) == Stem(Fs.Name(p))
            && Suffix(Fs.Name(q.value)) == ".md"
  {
    var name := Fs.Name(p);
    var stem := Stem(name);
    assert stem != [];
    SuffixOfMd(stem);
    var q := WithSuffix(p, ".md").value;
    assert Fs.Name(q) == stem + ".md";
  }

  /** Every branch settles on a path whose name has the suffix ".md", except a
      non-directory path with an empty name, which Python rejects. */
  lemma TargetIsMarkdown(exportMd: Option<string>, cwd: Fs.Path, now: Timestamp,
                         expand: string -> Fs.Path, isDir: Fs.Path -> bool)
    ensures var t := Target(exportMd, cwd, now, expand, isDir);
            && (t.EmptyName? <==> exportMd.Some? && !isDir(expand(exportMd.value)) && Fs.Name(expand(exportMd.value)) == "")
            && (t.Resolved? ==> Suffix(Fs.Name(t.path)) == ".md")
  {
    ReportNameShape(now);
    if exportMd.Some? {
      var path := expand(exportMd.value);
      if Fs.Name(path) == "" {
        SuffixEmpty("");
      } else if !isDir(path) && Suffix(Fs.Name(path)) != ".md" {
        WithSuffixMd(path);
      }
    }
  }

  /** With no argument, or a directory, the file is the generated name inside the
      current directory or that directory; a file path already named "*.md" is kept,
      only resolved. */
  lemma ResolveBranches(exportMd: Option<string>, cwd: Fs.Path, now: Timestamp,
                        expand: string -> Fs.Path, isDir: Fs.Path -> bool, resolve: Fs.Path -> Fs.Path)
    ensures var r := ResolveMarkdownPath(exportMd, cwd, now, expand, isDir, resolve);
            && (exportMd.None? ==> r == Resolved(cwd + ["bugtrace-report-" + Stamp(now) + ".md"]))
            && (exportMd.Some? && isDir(expand(exportMd.value)) ==>
                  r == Resolved(expand(exportMd.value) + ["bugtrace-report-" + Stamp(now) + ".md"]))
            && (exportMd.Some? && !isDir(expand(exportMd.value)) && Suffix(Fs.Name(expand(exportMd.value))) == ".md" ==>
                  r == Resolved(resolve(expand(exportMd.value))))
  {
  }

  /** When resolving keeps a path's name, the resolved export path ends in ".md" on
      every branch that does not raise. */
  lemma ResolvedIsMarkdown(exportMd: Option<string>, cwd: Fs.Path, now: Timestamp,
                           expand: string -> Fs.Path, isDir: Fs.Path -> bool, resolve: Fs.Path -> Fs.Path)
    requires forall p :: Fs.Name(resolve(p)) == Fs.Name(p)
    ensures var r := ResolveMarkdownPath(exportMd, cwd, now, expand, isDir, resolve);
            r.Resolved? ==> Suffix(Fs.Name(r.path)) == ".md"
  {
    TargetIsMarkdown(exportMd, cwd, now, expand, isDir);
  }
}

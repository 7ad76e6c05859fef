/** Change detection (bugtrace/utils/fs.py): the ignore rule, the recursive project
    walk, and the manifest diff that classifies each scanned file as new, changed or
    unchanged and counts the files that disappeared.

    Foreign pieces are parameters: `fnmatch` (glob matching) is an uninterpreted
    predicate, and the SHA-256 of each readable file is read from `hashOf`, a snapshot
    of the disk (a path missing from it is a file `hash_file` cannot open). */
module Fs {
  import opened Strings

  /** A path as its parts: `Path('/a/b.py').parts == ('/', 'a', 'b.py')`. */
  type Path = seq<string>

  /** path -> SHA-256 hex digest, as stored in manifest.json */
  type Manifest = map<string, string>

  /** `path.name`: the last part, or "" for the empty path and the root. */
  function Name(p: Path): string {
    if p == [] || p[|p| - 1] == "/" then "" else p[|p| - 1]
  }

  /** `str(path)` */
  function PathStr(p: Path): string {
    if p == [] then "."
    else if p[0] == "/" then "/" + Join(p[1..], "/")
    else Join(p, "/")
  }

  /** `s.replace('\\', '/')` */
  function Slashes(s: string): (r: string)
    ensures |r| == |s| && forall i :: 0 <= i < |s| ==> r[i] == (if s[i] == '\\' then '/' else s[i])
  {
    seq(|s|, i requires 0 <= i < |s| => if s[i] == '\\' then '/' else s[i])
  }

  /** `pattern.lstrip('.')` */
  function LStripDots(s: string): (r: string)
    ensures r == [] || r[0] != '.'
    ensures |r| <= |s| && r == s[|s| - |r|..]
  {
    if s != [] && s[0] == '.' then LStripDots(s[1..]) else s
  }

  /** One pattern against the path relative to the project root (`rel`), its
      '/'-joined text (`relStr`) and the file name. */
  predicate PatternMatches(rel: Path, relStr: string, name: string, pattern: string,
                           fnmatch: (string, string) -> bool)
  {
    if StartsWith(pattern, ".") then
      (exists k | 0 <= k < |rel| ::
         (rel[k] == pattern || rel[k] == LStripDots(pattern)) && StartsWith(rel[k], "."))
      || name == pattern || (StartsWith(name, ".") && name == pattern)
    else
      (exists k | 0 <= k < |rel| :: fnmatch(rel[k], pattern))
      || fnmatch(relStr, pattern) || fnmatch(name, pattern)
  }

  /** `should_ignore(path, project_root, ignore_patterns)` */
  predicate ShouldIgnore(path: Path, root: Path, patterns: seq<string>, fnmatch: (string, string) -> bool)
  {
    // `path.relative_to(project_root)` raises unless the root's parts are a prefix
    |root| <= |path| && path[..|root|] == root &&
    var rel := path[|root|..];
    exists j | 0 <= j < |patterns| :: PatternMatches(rel, Slashes(PathStr(rel)), Name(path), patterns[j], fnmatch)
  }

  /** A path outside the project root, or an empty pattern list, is never ignored. */
  lemma NeverIgnoredOutsideOrWithoutPatterns(path: Path, root: Path, patterns: seq<string>,
                                             fnmatch: (string, string) -> bool)
    requires !(|root| <= |path| && path[..|root|] == root) || patterns == []
    ensures !ShouldIgnore(path, root, patterns, fnmatch)
  {
  }

  /** A pattern with a leading dot is an exact match: it ignores a path only when some
      part of the relative path, or the file name, is equal to it. */
  lemma HiddenPatternIsExact(rel: Path, relStr: string, name: string, pattern: string,
                             fnmatch: (string, string) -> bool)
    requires StartsWith(pattern, ".")
    ensures PatternMatches(rel, relStr, name, pattern, fnmatch) <==> pattern in rel || name == pattern
  {
    var stripped := LStripDots(pattern);
    if PatternMatches(rel, relStr, name, pattern, fnmatch) && name != pattern {
      var k :| 0 <= k < |rel| && (rel[k] == pattern || rel[k] == stripped) && StartsWith(rel[k], ".");
      assert rel[k][..1] == ".";
      assert rel[k][0] == '.';
      assert rel[k] != stripped;
    }
    if pattern in rel {
      var k :| 0 <= k < |rel| && rel[k] == pattern;
      assert StartsWith(rel[k], ".");
    }
  }

  /** Any other pattern is a glob: it ignores a path when it matches some part of the
      relative path, the '/'-joined relative path or the file name. */
  lemma GlobPatternMatchesAnyPlace(rel: Path, relStr: string, name: string, pattern: string,
                                   fnmatch: (string, string) -> bool)
    requires !StartsWith(pattern, ".")
    ensures PatternMatches(rel, relStr, name, pattern, fnmatch) <==>
              (exists part | part in rel :: fnmatch(part, pattern)) || fnmatch(relStr, pattern) || fnmatch(name, pattern)
  {
    if exists part | part in rel :: fnmatch(part, pattern) {
      var part :| part in rel && fnmatch(part, pattern);
      var k :| 0 <= k < |rel| && rel[k] == part;
    }
  }

  /** `.git` is not `git`: a directory named `git` (or `gitstuff`) under the project is not
      ignored by the pattern `.git`, whatever the glob matcher says. */
  lemma DotGitDoesNotMatchGit(fnmatch: (string, string) -> bool, dirName: string)
    requires dirName == "git" || dirName == "gitstuff"
    ensures !ShouldIgnore(["/", "proj", dirName, "main.py"], ["/", "proj"], [".git"], fnmatch)
  {
    var path: Path := ["/", "proj", dirName, "main.py"];
    var rel := path[2..];
    assert rel == [dirName, "main.py"];
    HiddenPatternIsExact(rel, Slashes(PathStr(rel)), Name(path), ".git", fnmatch);
  }

  // ----- walk_project -----

  /** What `iterdir` shows: a regular file, a directory (which `iterdir` may refuse to
      list), or anything else (which the walk neither lists nor enters). */
  datatype Entry =
    | File(name: string)
    | Dir(name: string, readable: bool, children: seq<Entry>)
    | Other(name: string)

  /** The files the walk lists for one item found at `parent / item.name`. */
  function ItemFiles(parent: Path, item: Entry, root: Path, ignore: seq<string>,
                     fnmatch: (string, string) -> bool): seq<Path>
    decreases item
  {
    var path := parent + [item.name];
    if ShouldIgnore(path, root, ignore, fnmatch) then []
    else match item
      case File(_) => [path]
      case Dir(_, readable, children) => if readable then ChildrenFiles(path, item, children, root, ignore, fnmatch) else []
      case Other(_) => []
  }

  /** The files the walk lists for the items `items` (a prefix of `dir`'s children),
      in iteration order. */
  function ChildrenFiles(current: Path, ghost dir: Entry, items: seq<Entry>, root: Path,
                         ignore: seq<string>, fnmatch: (string, string) -> bool): seq<Path>
    requires dir.Dir? && forall e | e in items :: e in dir.children
    decreases dir, |items|
  {
    if items == [] then []
    else
      assert items[|items| - 1] in dir.children;
      ChildrenFiles(current, dir, items[..|items| - 1], root, ignore, fnmatch)
      + ItemFiles(current, items[|items| - 1], root, ignore, fnmatch)
  }

  /** The files under the directory `dir` found at `current`. */
  function DirFiles(current: Path, dir: Entry, root: Path, ignore: seq<string>,
                    fnmatch: (string, string) -> bool): seq<Path>
    requires dir.Dir?
  {
    if dir.readable then ChildrenFiles(current, dir, dir.children, root, ignore, fnmatch) else []
  }

  /** `walk_project(project_root, ignore)` over the tree `tree` rooted at `root`. */
  method WalkProject(root: Path, tree: Entry, ignore: seq<string>, fnmatch: (string, string) -> bool)
    returns (allFiles: seq<Path>)
    requires tree.Dir?
    ensures allFiles == DirFiles(root, tree, root, ignore, fnmatch)
  {
    allFiles := Walk(root, tree, root, ignore, fnmatch, []);
  }

  /** The recursive `_walk(current_path)`, appending to the accumulated list. */
  method Walk(current: Path, dir: Entry, root: Path, ignore: seq<string>,
              fnmatch: (string, string) -> bool, acc: seq<Path>)
    returns (allFiles: seq<Path>)
    requires dir.Dir?
    ensures allFiles == acc + DirFiles(current, dir, root, ignore, fnmatch)
    decreases dir
  {
    allFiles := acc;
    if !dir.readable {
      // iterdir raised PermissionError: nothing is listed
      return;
    }
    var i := 0;
    while i < |dir.children|
      invariant 0 <= i <= |dir.children|
      invariant allFiles == acc + ChildrenFiles(current, dir, dir.children[..i], root, ignore, fnmatch)
    {
      var item := dir.children[i];
      assert dir.children[..i + 1][..i] == dir.children[..i];
      var path := current + [item.name];
      if !ShouldIgnore(path, root, ignore, fnmatch) {
        match item {
          case Dir(_, _, _) =>
            allFiles := Walk(path, item, root, ignore, fnmatch, allFiles);
          case File(_) =>
            allFiles := allFiles + [path];
          case Other(_) =>
        }
      }
      i := i + 1;
    }
    assert dir.children[..i] == dir.children;
  }

  /** Every listed file lies under the root and neither it nor any directory between it
      and the root is ignored: the walk never descends into an ignored directory. */
  predicate Unpruned(p: Path, root: Path, ignore: seq<string>, fnmatch: (string, string) -> bool) {
    |root| < |p| && p[..|root|] == root
    && forall k | |root| < k <= |p| :: !ShouldIgnore(p[..k], root, ignore, fnmatch)
  }

  lemma {:induction false} ChildrenFilesUnpruned(current: Path, dir: Entry, items: seq<Entry>, root: Path,
                                                 ignore: seq<string>, fnmatch: (string, string) -> bool)
    requires dir.Dir? && forall e | e in items :: e in dir.children
    requires |root| <= |current| && current[..|root|] == root
    requires forall k | |root| < k <= |current| :: !ShouldIgnore(current[..k], root, ignore, fnmatch)
    ensures forall p | p in ChildrenFiles(current, dir, items, root, ignore, fnmatch) :: Unpruned(p, root, ignore, fnmatch)
    decreases dir, |items|
  {
    if items != [] {
      var item := items[|items| - 1];
      assert item in dir.children;
      ChildrenFilesUnpruned(current, dir, items[..|items| - 1], root, ignore, fnmatch);
      ItemFilesUnpruned(current, item, root, ignore, fnmatch);
    }
  }

  lemma {:induction false} ItemFilesUnpruned(current: Path, item: Entry, root: Path,
                                             ignore: seq<string>, fnmatch: (string, string) -> bool)
    requires |root| <= |current| && current[..|root|] == root
    requires forall k | |root| < k <= |current| :: !ShouldIgnore(current[..k], root, ignore, fnmatch)
    ensures forall p | p in ItemFiles(current, item, root, ignore, fnmatch) :: Unpruned(p, root, ignore, fnmatch)
    decreases item
  {
    var path := current + [item.name];
    if !ShouldIgnore(path, root, ignore, fnmatch) {
      assert path[..|root|] == root;
      assert forall k | |root| < k <= |path| :: !ShouldIgnore(path[..k], root, ignore, fnmatch) by {
        forall k | |root| < k <= |path| ensures !ShouldIgnore(path[..k], root, ignore, fnmatch) {
          if k <= |current| { assert path[..k] == current[..k]; } else { assert path[..k] == path; }
        }
      }
      if item.Dir? && item.readable {
        ChildrenFilesUnpruned(path, item, item.children, root, ignore, fnmatch);
      }
    }
  }

  /** What `walk_project` returns is made only of files none of whose enclosing
      directories below the root, nor the file itself, is ignored. */
  lemma WalkListsOnlyUnprunedFiles(root: Path, tree: Entry, ignore: seq<string>, fnmatch: (string, string) -> bool)
    requires tree.Dir?
    ensures forall p | p in DirFiles(root, tree, root, ignore, fnmatch) :: Unpruned(p, root, ignore, fnmatch)
  {
    if tree.readable {
      ChildrenFilesUnpruned(root, tree, tree.children, root, ignore, fnmatch);
    }
  }

  // ----- manifest.json -----

  /** The project's `.bugtrace` directory as far as manifest.json is concerned:
      `None` while the file does not exist. */
  class ManifestStore {
    var file: Option<Manifest>

    constructor (file: Option<Manifest>)
      ensures this.file == file
    {
      this.file := file;
    }

    /** `load_manifest(state_dir)` */
    function Load(): (m: Manifest)
      reads this
      ensures file.None? ==> m == map[]
      ensures file.Some? ==> m == file.value
    {
      file.GetOr(map[])
    }

    /** `save_manifest(state_dir, manifest)` */
    method Save(m: Manifest)
      modifies this
      ensures file == Some(m)
    {
      file := Some(m);
    }

    /** `update_manifest(state_dir, files)` */
    method UpdateManifest(files: seq<Path>, hashOf: map<string, string>) returns (r: ScanOutcome)
      modifies this
      ensures r.HashFailed? <==> !Hashable(KeysOf(files), hashOf)
      ensures r.HashFailed? ==> file == old(file)
      ensures r.Scanned? ==>
                var keys := KeysOf(files);
                && file == Some(NewManifest(keys, hashOf))
                && r.stats == Tally(keys, old(Load()), hashOf)
    {
      var oldManifest := Load();
      var keys := KeysOf(files);
      var failed, newManifest, added, changed, same := ScanFiles(keys, oldManifest, hashOf);
      if failed.Some? {
        // hash_file raised: the exception leaves update_manifest before the save
        return HashFailed(failed.value);
      }
      var removed := CountRemoved(oldManifest, Elems(keys));
      Save(newManifest);
      r := Scanned(Stats(added, changed, same, removed));
    }
  }

  /** The first loop of `update_manifest`: hash every scanned file, compare it with the
      previous manifest and build the new one. Stops at the first file that cannot be
      hashed. */
  method ScanFiles(keys: seq<string>, prev: Manifest, hashOf: map<string, string>)
    returns (failed: Option<string>, m: Manifest, added: nat, changed: nat, same: nat)
    ensures failed.None? <==> Hashable(keys, hashOf)
    ensures failed.Some? ==> failed.value in keys && failed.value !in hashOf
    ensures failed.None? ==>
              && m == NewManifest(keys, hashOf)
              && added == CountKind(keys, New, prev, hashOf)
              && changed == CountKind(keys, Changed, prev, hashOf)
              && same == CountKind(keys, Unchanged, prev, hashOf)
  {
    m := map[];
    added, changed, same := 0, 0, 0;
    var i := 0;
    while i < |keys|
      invariant 0 <= i <= |keys|
      invariant Hashable(keys[..i], hashOf)
      invariant m == NewManifest(keys[..i], hashOf)
      invariant added == CountKind(keys[..i], New, prev, hashOf)
      invariant changed == CountKind(keys[..i], Changed, prev, hashOf)
      invariant same == CountKind(keys[..i], Unchanged, prev, hashOf)
    {
      var fileKey := keys[i];
      if fileKey !in hashOf {
        return Some(fileKey), m, added, changed, same;
      }
      ghost var next := keys[..i + 1];
      assert next[..i] == keys[..i] && next[i] == fileKey;
      assert Hashable(next, hashOf) by {
        forall k | k in next ensures k in hashOf {
          var j :| 0 <= j < |next| && next[j] == k;
          if j < i { assert k in keys[..i]; }
        }
      }
      var currentHash := hashOf[fileKey];
      if fileKey !in prev {
        added := added + 1;
      } else if prev[fileKey] != currentHash {
        changed := changed + 1;
      } else {
        same := same + 1;
      }
      m := m[fileKey := currentHash];
      i := i + 1;
    }
    assert keys[..i] == keys;
    failed := None;
  }

  /** The second loop of `update_manifest`: the previously recorded files that the scan
      did not see. */
  method CountRemoved(prev: Manifest, current: set<string>) returns (removed: nat)
    ensures removed == |prev.Keys - current|
  {
    removed := 0;
    var remaining := prev.Keys;
    ghost var seen: set<string> := {};
    while remaining != {}
      invariant seen + remaining == prev.Keys && seen !! remaining
      invariant removed == |seen - current|
      decreases |remaining|
    {
      var oldFile :| oldFile in remaining;
      if oldFile !in current {
        assert (seen + {oldFile}) - current == (seen - current) + {oldFile};
        removed := removed + 1;
      } else {
        assert (seen + {oldFile}) - current == seen - current;
      }
      seen := seen + {oldFile};
      remaining := remaining - {oldFile};
    }
  }

  /** Every scanned file can be hashed. */
  predicate Hashable(keys: seq<string>, hashOf: map<string, string>) {
    forall k | k in keys :: k in hashOf
  }

  datatype Stats = Stats(added: nat, changed: nat, same: nat, removed: nat)

  datatype ScanOutcome = Scanned(stats: Stats) | HashFailed(path: string)

  datatype Kind = New | Changed | Unchanged

  /** `str(filepath)` for every scanned file, in scan order. */
  function KeysOf(files: seq<Path>): (keys: seq<string>)
    ensures |keys| == |files| && forall i :: 0 <= i < |files| ==> keys[i] == PathStr(files[i])
  {
    seq(|files|, i requires 0 <= i < |files| => PathStr(files[i]))
  }

  /** How one scanned file compares with the previous manifest. */
  function Classify(key: string, prev: Manifest, hash: string): Kind {
    if key !in prev then New else if prev[key] != hash then Changed else Unchanged
  }

  /** The number of scanned files of kind `kind`. */
  function CountKind(keys: seq<string>, kind: Kind, prev: Manifest, hashOf: map<string, string>): nat
    requires Hashable(keys, hashOf)
  {
    if keys == [] then 0
    else
      var last := keys[|keys| - 1];
      CountKind(keys[..|keys| - 1], kind, prev, hashOf) + (if Classify(last, prev, hashOf[last]) == kind then 1 else 0)
  }

  /** The new/changed/unchanged counters after a prefix of the scan. */
  function Counts(keys: seq<string>, prev: Manifest, hashOf: map<string, string>): Stats
    requires Hashable(keys, hashOf)
  {
    Stats(CountKind(keys, New, prev, hashOf), CountKind(keys, Changed, prev, hashOf),
          CountKind(keys, Unchanged, prev, hashOf), 0)
  }

  /** The statistics `update_manifest` returns. */
  function Tally(keys: seq<string>, prev: Manifest, hashOf: map<string, string>): Stats
    requires Hashable(keys, hashOf)
  {
    Counts(keys, prev, hashOf).(removed := |prev.Keys - Elems(keys)|)
  }

  /** The manifest `update_manifest` saves: each scanned path with its fresh hash. */
  function NewManifest(keys: seq<string>, hashOf: map<string, string>): Manifest
    requires Hashable(keys, hashOf)
  {
    if keys == [] then map[]
    else NewManifest(keys[..|keys| - 1], hashOf)[keys[|keys| - 1] := hashOf[keys[|keys| - 1]]]
  }

  /** The saved manifest records exactly the scanned files, each with its hash. */
  lemma {:induction false} NewManifestContents(keys: seq<string>, hashOf: map<string, string>)
    requires Hashable(keys, hashOf)
    ensures NewManifest(keys, hashOf).Keys == Elems(keys)
    ensures forall k | k in NewManifest(keys, hashOf) :: NewManifest(keys, hashOf)[k] == hashOf[k]
  {
    if keys != [] {
      var init := keys[..|keys| - 1];
      NewManifestContents(init, hashOf);
      assert keys == init + [keys[|keys| - 1]];
      ElemsAppend(init, [keys[|keys| - 1]]);
      assert Elems([keys[|keys| - 1]]) == {keys[|keys| - 1]};
    }
  }

  /** Every scanned file is counted exactly once: the three counters add up to the
      length of the scan. */
  lemma {:induction false} CountsCoverScan(keys: seq<string>, prev: Manifest, hashOf: map<string, string>)
    requires Hashable(keys, hashOf)
    ensures var s := Tally(keys, prev, hashOf); s.added + s.changed + s.same == |keys|
  {
    if keys != [] {
      CountsCoverScan(keys[..|keys| - 1], prev, hashOf);
    }
  }

  lemma {:induction false} DistinctCardinality(keys: seq<string>)
    requires forall i, j | 0 <= i < j < |keys| :: keys[i] != keys[j]
    ensures |Elems(keys)| == |keys|
  {
    if keys != [] {
      var init := keys[..|keys| - 1];
      DistinctCardinality(init);
      assert keys == init + [keys[|keys| - 1]];
      ElemsAppend(init, [keys[|keys| - 1]]);
      assert Elems([keys[|keys| - 1]]) == {keys[|keys| - 1]};
      assert Elems(keys) == Elems(init) + {keys[|keys| - 1]};
      assert keys[|keys| - 1] !in Elems(init);
    }
  }

  /** For a scan without repeated paths (what `walk_project` produces) the three counters
      add up to the number of distinct scanned files, which is the size of the saved
      manifest. */
  lemma CountsCoverDistinctFiles(keys: seq<string>, prev: Manifest, hashOf: map<string, string>)
    requires Hashable(keys, hashOf)
    requires forall i, j | 0 <= i < j < |keys| :: keys[i] != keys[j]
    ensures var s := Tally(keys, prev, hashOf);
            s.added + s.changed + s.same == |Elems(keys)| == |NewManifest(keys, hashOf)|
  {
    CountsCoverScan(keys, prev, hashOf);
    DistinctCardinality(keys);
    NewManifestContents(keys, hashOf);
  }

  /** The worked example: old manifest {a: h1, b: h2}, new scan {a: h1, c: h3} gives
      one new file (c), none changed, one unchanged (a) and one removed (b). */
  lemma ManifestDiffExample()
    ensures Tally(["a", "c"], map["a" := "h1", "b" := "h2"], map["a" := "h1", "c" := "h3"])
            == Stats(1, 0, 1, 1)
  {
    var keys := ["a", "c"];
    var prev := map["a" := "h1", "b" := "h2"];
    var hashOf := map["a" := "h1", "c" := "h3"];
    assert keys[..1] == ["a"] && ["a"][..0] == [];
    assert Classify("a", prev, "h1") == Unchanged && Classify("c", prev, "h3") == New;
    assert CountKind(["a"], New, prev, hashOf) == 0;
    assert CountKind(["a"], Changed, prev, hashOf) == 0;
    assert CountKind(["a"], Unchanged, prev, hashOf) == 1;
    assert Elems(keys) == {"a", "c"} by { ElemsAppend(["a"], ["c"]); }
    assert prev.Keys - Elems(keys) == {"b"};
  }
}

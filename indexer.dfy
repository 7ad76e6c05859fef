/** The index coordinator (bugtrace/rag/indexer.py): the decision flow of `index_project`,
    the per-file loop of `_build_embeddings`, and the decisions of
    `ensure_project_indexed`.

    The scan that `index_project` runs first is not modelled: `manifest` is what
    `load_manifest` returns after it, and `order` lists its keys in the order
    manifest.json holds them. Everything that reads the disk or calls a library is a
    field of `Env` or a parameter: `hashConfig` is `hash_config` (SHA-256 over the JSON
    text), `embedderOk` says whether `get_embedder` succeeds, and `store` is the vector
    store `_build_embeddings` constructs. Which collection that is (the project root
    found by walking up from the first file to a directory holding `.bugtrace`, and the
    collection "default" under a directory named after that root) and whether
    constructing it fails are not modelled: the store is given. */
module Indexer {
  import opened Strings
  import opened PyValue
  import Fs
  import State
  import Chunker
  import VectorStore
  import Settings

  /** The outside world of the per-file loop. */
  datatype Env = Env(
    /** `read_text`: the content, or `None` when reading raises */
    read: string -> Option<string>,
    /** `Path(filepath_str).parts` */
    parse: string -> Fs.Path,
    /** the LangChain splitters */
    split: (Chunker.Splitter, string) -> seq<string>,
    /** whether `embed_texts` succeeds on these texts */
    embeds: seq<string> -> bool,
    /** whether Chroma's `get()` raises while deleting the chunks of this resolved path */
    getFails: string -> bool,
    /** `Path.resolve` as text */
    resolve: string -> string,
    /** MD5 hex digest */
    md5: string -> string)

  /** The keys of `files` in the order `order` lists them: the order in which
      `get_files_to_index` copies entries out of the manifest. */
  function InOrder(order: seq<string>, files: map<string, string>): (r: seq<string>)
    ensures Elems(r) == Elems(order) * files.Keys
    ensures |r| <= |order|
  {
    if order == [] then []
    else
      var rest := InOrder(order[1..], files);
      assert Elems(order) == {order[0]} + Elems(order[1..]) by { ElemsAppend([order[0]], order[1..]); assert order == [order[0]] + order[1..]; }
      if order[0] in files then ElemsAppend([order[0]], rest); [order[0]] + rest else rest
  }

  /** `InOrder` keeps exactly the entries of `order` that `files` holds, in the order
      `order` lists them: `pos` gives, for each result, its position in `order`; the
      positions increase, and every kept position of `order` is among them. */
  lemma {:induction false} InOrderPositions(order: seq<string>, files: map<string, string>) returns (pos: seq<nat>)
    ensures IsPositions(pos, order, files, InOrder(order, files))
    decreases |order|
  {
    if order == [] {
      pos := [];
    } else {
      var rest := InOrder(order[1..], files);
      var tail := InOrderPositions(order[1..], files);
      var shifted := Shifted(tail, order, files, rest);
      if order[0] in files {
        assert InOrder(order, files) == [order[0]] + rest;
        pos := [0] + shifted;
      } else {
        assert InOrder(order, files) == rest;
        pos := shifted;
      }
    }
  }

  /** Manifest keys are distinct, and then so are the selected files: each is listed
      once, so there are as many as there are selected keys. */
  lemma InOrderListsEachOnce(order: seq<string>, files: map<string, string>)
    requires forall i, j | 0 <= i < j < |order| :: order[i] != order[j]
    ensures var r := InOrder(order, files);
            && (forall i, j | 0 <= i < j < |r| :: r[i] != r[j])
            && |r| == |Elems(order) * files.Keys|
  {
    var r := InOrder(order, files);
    var pos := InOrderPositions(order, files);
    forall i, j | 0 <= i < j < |r| ensures r[i] != r[j] {
      assert order[pos[i]] == r[i] && order[pos[j]] == r[j] && pos[i] < pos[j];
    }
    Fs.DistinctCardinality(r);
  }

  /** `pos` lists, in increasing order, the positions of `order` whose entry `files`
      holds, and `r` holds those entries. */
  predicate IsPositions(pos: seq<nat>, order: seq<string>, files: map<string, string>, r: seq<string>) {
    && |pos| == |r|
    && (forall i | 0 <= i < |pos| :: pos[i] < |order| && order[pos[i]] == r[i])
    && (forall i, j | 0 <= i < j < |pos| :: pos[i] < pos[j])
    && (forall a | 0 <= a < |order| && order[a] in files :: a in pos)
  }

  /** Positions in `order[1..]`, moved one place on to be positions in `order`. */
  lemma Shifted(tail: seq<nat>, order: seq<string>, files: map<string, string>, r: seq<string>) returns (pos: seq<nat>)
    requires order != [] && IsPositions(tail, order[1..], files, r)
    ensures |pos| == |r|
    ensures forall i | 0 <= i < |pos| :: 1 <= pos[i] < |order| && order[pos[i]] == r[i]
    ensures forall i, j | 0 <= i < j < |pos| :: pos[i] < pos[j]
    ensures forall a | 1 <= a < |order| && order[a] in files :: a in pos
  {
    pos := seq(|tail|, k requires 0 <= k < |tail| => tail[k] + 1);
    forall i | 0 <= i < |pos| ensures 1 <= pos[i] < |order| && order[pos[i]] == r[i] {
      assert order[1..][tail[i]] == r[i];
    }
    forall a | 1 <= a < |order| && order[a] in files ensures a in pos {
      assert order[1..][a - 1] == order[a];
      var k :| 0 <= k < |tail| && tail[k] == a - 1;
      assert pos[k] == a;
    }
  }

  // ---------------------------------------------------------------------------------
  // `_build_embeddings`

  /** The chunks `chunk_file` makes of one file. */
  function FileChunks(f: string, content: string, size: int, overlap: int, env: Env): seq<Chunker.Chunk> {
    Chunker.BaseChunks(env.parse(f), content, size, overlap, env.split)
  }

  /** What the loop gets for a file before touching the store: `None` when reading
      raises, otherwise the file's chunks. */
  function ReadChunks(f: string, size: int, overlap: int, env: Env): Option<seq<Chunker.Chunk>> {
    match env.read(f)
    case None => None
    case Some(content) => Some(FileChunks(f, content, size, overlap, env))
  }

  /** One iteration of the loop, given what reading and chunking the file gave: the
      store afterwards and the chunks it adds to the total. A file that cannot be read,
      yields no chunks, cannot be embedded or is refused by the store adds nothing to
      the total; its old chunks are deleted as soon as it has been read. */
  function ProcessFile(entries: map<string, VectorStore.Record>, f: string, read: Option<seq<Chunker.Chunk>>, env: Env)
    : (map<string, VectorStore.Record>, nat)
  {
    match read
    case None => (entries, 0)
    case Some(chunks) =>
      var path := env.resolve(Fs.PathStr(env.parse(f)));
      var cleared := if env.getFails(path) then entries else VectorStore.WithoutFile(entries, path);
      if chunks == [] || !env.embeds(VectorStore.Texts(chunks)) then (cleared, 0)
      else
        var (added, outcome) := VectorStore.AddResult(cleared, chunks, env.md5);
        if outcome.Added? then (added, |chunks|) else (cleared, 0)
  }

  /** The loop's result after one more file `f`, from the result `acc` so far. */
  function Next(acc: (map<string, VectorStore.Record>, nat), f: string, size: int, overlap: int, env: Env)
    : (map<string, VectorStore.Record>, nat)
  {
    var r := ProcessFile(acc.0, f, ReadChunks(f, size, overlap, env), env);
    (r.0, acc.1 + r.1)
  }

  /** The loop over `files`, in order, with these chunk settings: the final store and
      `total_chunks`. */
  function ProcessFiles(entries: map<string, VectorStore.Record>, files: seq<string>, size: int, overlap: int, env: Env)
    : (map<string, VectorStore.Record>, nat)
  {
    if files == [] then (entries, 0)
    else Next(ProcessFiles(entries, files[..|files| - 1], size, overlap, env), files[|files| - 1], size, overlap, env)
  }

  /** Processing one more file continues from where the loop stood. */
  lemma ProcessFilesSnoc(entries: map<string, VectorStore.Record>, files: seq<string>, f: string,
                         size: int, overlap: int, env: Env)
    ensures ProcessFiles(entries, files + [f], size, overlap, env)
            == Next(ProcessFiles(entries, files, size, overlap, env), f, size, overlap, env)
  {
    assert (files + [f])[..|files|] == files;
  }

  /** The loop's invariant carried over one iteration, stated for the loop's updated
      prefix `files` and total `newTotal`. */
  lemma ProcessFilesStep(entries: map<string, VectorStore.Record>, prefix: seq<string>, f: string, files: seq<string>,
                         size: int, overlap: int, env: Env,
                         before: map<string, VectorStore.Record>, total: nat, after: map<string, VectorStore.Record>,
                         n: nat, newTotal: nat)
    requires files == prefix + [f] && newTotal == total + n
    requires ProcessFiles(entries, prefix, size, overlap, env).0 == before
    requires ProcessFiles(entries, prefix, size, overlap, env).1 == total
    requires ProcessFile(before, f, ReadChunks(f, size, overlap, env), env).0 == after
    requires ProcessFile(before, f, ReadChunks(f, size, overlap, env), env).1 == n
    ensures ProcessFiles(entries, files, size, overlap, env).0 == after
    ensures ProcessFiles(entries, files, size, overlap, env).1 == newTotal
  {
    ProcessFilesSnoc(entries, prefix, f, size, overlap, env);
  }

  /** The body of the loop for one file; an exception raised inside it is caught and
      the file is skipped. */
  method IndexFile(f: string, store: VectorStore.VectorStore, chunker: Chunker.Chunker, env: Env) returns (n: nat)
    requires chunker.Valid()
    modifies store, chunker
    ensures chunker.Valid()
    ensures store.entries == ProcessFile(old(store.entries), f, ReadChunks(f, chunker.chunkSize, chunker.chunkOverlap, env), env).0
    ensures n == ProcessFile(old(store.entries), f, ReadChunks(f, chunker.chunkSize, chunker.chunkOverlap, env), env).1
  {
    n := 0;
    var content := env.read(f);
    if content.Some? {
      var filepath := env.parse(f);
      var path := env.resolve(Fs.PathStr(filepath));
      store.DeleteFileChunks(Fs.PathStr(filepath), env.resolve, env.getFails(path));
      ghost var cleared := store.entries;
      var chunks := chunker.ChunkFile(filepath, content.value, env.split);
      assert chunks == FileChunks(f, content.value, chunker.chunkSize, chunker.chunkOverlap, env);
      if chunks != [] {
        var texts := VectorStore.Texts(chunks);
        if env.embeds(texts) {
          var outcome := store.AddChunks(chunks, env.md5);
          if outcome.Added? {
            n := |chunks|;
          } else {
            VectorStore.AddResultRefusedKeeps(cleared, chunks, env.md5);
          }
        }
      }
    }
  }

  datatype BuildOutcome =
    | NothingToBuild
    | EmbedderFailed
    /** `config['rag'][key]` raised KeyError */
    | MissingSetting(key: string)
    | Built(totalChunks: nat)

  /** `config['rag'][key]`, when present. */
  function RagSetting(config: Dict, key: string): Option<Value> {
    Get(Settings.Section(config, "rag").GetOr([]), key)
  }

  /** The chunk settings, where present, are ints (a bool counts, as in Python): what
      `_build_embeddings` needs to hand them to the chunker. */
  predicate ChunkSettingsInt(config: Dict) {
    && (RagSetting(config, "chunk_size").Some? ==> Settings.IsInt(RagSetting(config, "chunk_size").value))
    && (RagSetting(config, "chunk_overlap").Some? ==> Settings.IsInt(RagSetting(config, "chunk_overlap").value))
  }

  /** A configuration that `validate_config` accepts holds its chunk settings as ints. */
  lemma ValidatedChunkSettings(config: Dict)
    requires Settings.ValidateConfig(config).Ok?
    ensures ChunkSettingsInt(config)
  {
    Settings.ValidateConfigAcceptsExactly(config);
    var rag := ValidRagSection(config);
    RagOkChunkInts(rag);
  }

  /** A valid configuration's rag section, which passes the rag checks. */
  lemma ValidRagSection(config: Dict) returns (rag: Dict)
    requires Settings.ConfigValid(config)
    ensures Settings.Section(config, "rag") == Some(rag) && Settings.RagOk(rag)
  {
    assert "rag" in Settings.Sections;
    rag := Settings.Section(config, "rag").value;
  }

  /** The rag checks accept chunk settings only as ints. */
  lemma RagOkChunkInts(rag: Dict)
    requires Settings.RagOk(rag)
    ensures Get(rag, "chunk_size").Some? ==> Settings.IsInt(Get(rag, "chunk_size").value)
    ensures Get(rag, "chunk_overlap").Some? ==> Settings.IsInt(Get(rag, "chunk_overlap").value)
  {
    assert Settings.IntSettingOk(rag, "chunk_size", 1, 2000);
    assert Settings.IntSettingOk(rag, "chunk_overlap", 200, 2000);
  }

  /** The loop of `_build_embeddings` over the files, in order, with one chunker. */
  method IndexFiles(order: seq<string>, store: VectorStore.VectorStore, chunker: Chunker.Chunker, env: Env)
    returns (total: nat)
    requires chunker.Valid()
    modifies store, chunker
    ensures (store.entries, total) == ProcessFiles(old(store.entries), order, chunker.chunkSize, chunker.chunkOverlap, env)
  {
    total := 0;
    var i := 0;
    while i < |order|
      invariant 0 <= i <= |order|
      invariant chunker.Valid()
      invariant store.entries == ProcessFiles(old(store.entries), order[..i], chunker.chunkSize, chunker.chunkOverlap, env).0
      invariant total == ProcessFiles(old(store.entries), order[..i], chunker.chunkSize, chunker.chunkOverlap, env).1
    {
      ghost var before, prefix, prevTotal := store.entries, order[..i], total;
      var f := order[i];
      var n := IndexFile(f, store, chunker, env);
      total := total + n;
      i := i + 1;
      assert order[..i] == prefix + [f];
      ProcessFilesStep(old(store.entries), prefix, f, order[..i], chunker.chunkSize, chunker.chunkOverlap, env,
                       before, prevTotal, store.entries, n, total);
    }
    assert order[..i] == order;
  }

  /** `_build_embeddings(files_to_index, config, index_dir, state_manager)`, iterating the
      files in `order`. */
  method BuildEmbeddings(files: map<string, string>, order: seq<string>, config: Dict,
                         store: VectorStore.VectorStore, sm: State.StateManager, embedderOk: bool, env: Env)
    returns (r: BuildOutcome)
    requires Elems(order) == files.Keys
    requires ChunkSettingsInt(config)
    modifies store, sm
    ensures files == map[] <==> r.NothingToBuild?
    ensures r.EmbedderFailed? <==> files != map[] && !embedderOk
    ensures r.MissingSetting? <==>
              && files != map[] && embedderOk
              && (RagSetting(config, "chunk_size").None? || RagSetting(config, "chunk_overlap").None?)
    ensures !r.Built? ==> store.entries == old(store.entries) && sm.state == old(sm.state) && sm.disk == old(sm.disk)
    ensures r.Built? ==>
              && (var size := Settings.IntOf(RagSetting(config, "chunk_size").value);
                  var overlap := Settings.IntOf(RagSetting(config, "chunk_overlap").value);
                  (store.entries, r.totalChunks) == ProcessFiles(old(store.entries), order, size, overlap, env))
              && sm.state == old(sm.state).(metadata := Some(Update(old(sm.state).metadata.GetOr([]),
                                                                    [("total_chunks", VInt(r.totalChunks))])))
              && sm.disk == State.Stored(sm.state)
  {
    if files == map[] {
      return NothingToBuild;
    }
    if !embedderOk {
      return EmbedderFailed;
    }
    var sizeValue, overlapValue := RagSetting(config, "chunk_size"), RagSetting(config, "chunk_overlap");
    if sizeValue.None? {
      return MissingSetting("chunk_size");
    }
    if overlapValue.None? {
      return MissingSetting("chunk_overlap");
    }
    var size, overlap := Settings.IntOf(sizeValue.value), Settings.IntOf(overlapValue.value);
    var chunker := new Chunker.Chunker(size, overlap);
    var total := IndexFiles(order, store, chunker, env);
    sm.UpdateMetadata([("total_chunks", VInt(total))]);
    r := Built(total);
  }

  // ---------------------------------------------------------------------------------
  // `index_project`

  datatype IndexOutcome =
    /** `validate_config` raised or failed */
    | InvalidConfig(validation: Settings.Validation)
    | EmptyManifest
    | UpToDate
    /** `config['rag']['chunk_size']` or `['store']` raised KeyError in the summary */
    | SummaryKeyMissing(key: string)
    /** `_build_embeddings` raised; the error is re-raised */
    | BuildFailed(build: BuildOutcome)
    | Indexed(files: map<string, string>, totalChunks: nat)

  /** The files `index_project` hands to `_build_embeddings`: the whole manifest when
      forced or when the configuration changed, otherwise `get_files_to_index`. */
  function Selection(s: State.ProjectState, manifest: map<string, string>, currentHash: string, force: bool)
    : map<string, string>
  {
    if force || State.ConfigChangedIn(s, currentHash) then manifest
    else State.FilesToIndex(manifest, s.indexedFiles.GetOr(map[]))
  }

  /** The state after a successful run: the loop's `total_chunks`, then the selected
      files marked indexed, the configuration hash and index time recorded, and the
      metadata counts written, `total_chunks` as ten per selected file. */
  function IndexedState(s: State.ProjectState, manifest: map<string, string>, files: map<string, string>,
                        currentHash: string, now: string, total: nat): State.ProjectState
  {
    var built := Update(s.metadata.GetOr([]), [("total_chunks", VInt(total))]);
    s.(indexedFiles := Some(s.indexedFiles.GetOr(map[]) + files),
       configHash := Some(currentHash),
       lastIndex := Some(now),
       metadata := Some(Update(built, [("total_files", VInt(|manifest|)), ("total_chunks", VInt(|files| * 10))])))
  }

  /** The second half of `index_project`, once `files` is selected and non-empty: the
      summary reads `chunk_size` and `store` (a missing key raises KeyError), then
      `_build_embeddings` runs, then the state records the files, the configuration hash,
      the index time and the counts. */
  method RunIndex(sm: State.StateManager, store: VectorStore.VectorStore, config: Dict,
                  manifest: map<string, string>, files: map<string, string>, filesOrder: seq<string>,
                  currentHash: string, now: string, embedderOk: bool, env: Env)
    returns (r: IndexOutcome)
    requires files != map[] && Elems(filesOrder) == files.Keys
    requires ChunkSettingsInt(config)
    modifies sm, store
    ensures r.SummaryKeyMissing? || r.BuildFailed? || r.Indexed?
    ensures r.SummaryKeyMissing? <==> RagSetting(config, "chunk_size").None? || RagSetting(config, "store").None?
    ensures r.BuildFailed? <==>
              && RagSetting(config, "chunk_size").Some? && RagSetting(config, "store").Some?
              && (!embedderOk || RagSetting(config, "chunk_overlap").None?)
    ensures r.BuildFailed? ==> (r.build.EmbedderFailed? <==> !embedderOk)
    ensures !r.Indexed? ==> sm.state == old(sm.state) && sm.disk == old(sm.disk) && store.entries == old(store.entries)
    ensures r.Indexed? ==>
              && r.files == files
              && RagSetting(config, "chunk_size").Some? && Settings.IsInt(RagSetting(config, "chunk_size").value)
              && RagSetting(config, "chunk_overlap").Some? && Settings.IsInt(RagSetting(config, "chunk_overlap").value)
              && (var size := Settings.IntOf(RagSetting(config, "chunk_size").value);
                  var overlap := Settings.IntOf(RagSetting(config, "chunk_overlap").value);
                  (store.entries, r.totalChunks) == ProcessFiles(old(store.entries), filesOrder, size, overlap, env))
              && sm.state == IndexedState(old(sm.state), manifest, files, currentHash, now, r.totalChunks)
              && sm.disk == State.Stored(sm.state)
  {
    if RagSetting(config, "chunk_size").None? {
      return SummaryKeyMissing("chunk_size");
    }
    if RagSetting(config, "store").None? {
      return SummaryKeyMissing("store");
    }
    var build := BuildEmbeddings(files, filesOrder, config, store, sm, embedderOk, env);
    if !build.Built? {
      return BuildFailed(build);
    }
    sm.MarkFilesIndexed(files);
    sm.UpdateConfigHash(currentHash);
    sm.UpdateIndexTime(now);
    sm.UpdateMetadata([("total_files", VInt(|manifest|)), ("total_chunks", VInt(|files| * 10))]);
    r := Indexed(files, build.totalChunks);
  }

  /** `index_project(project_root, force)` */
  method IndexProject(sm: State.StateManager, store: VectorStore.VectorStore, config: Dict,
                      manifest: map<string, string>, order: seq<string>, force: bool, now: string,
                      hashConfig: Dict -> string, embedderOk: bool, env: Env)
    returns (r: IndexOutcome)
    requires Elems(order) == manifest.Keys
    modifies sm, store
    ensures r.InvalidConfig? <==> !Settings.ValidateConfig(config).Ok?
    ensures r.EmptyManifest? <==> Settings.ValidateConfig(config).Ok? && manifest == map[]
    ensures r.UpToDate? <==> Settings.ValidateConfig(config).Ok? && manifest != map[]
                             && Selection(old(sm.state), manifest, hashConfig(config), force) == map[]
    ensures r.SummaryKeyMissing? <==>
              && Settings.ValidateConfig(config).Ok? && Selection(old(sm.state), manifest, hashConfig(config), force) != map[]
              && (RagSetting(config, "chunk_size").None? || RagSetting(config, "store").None?)
    ensures r.BuildFailed? <==>
              && Settings.ValidateConfig(config).Ok? && Selection(old(sm.state), manifest, hashConfig(config), force) != map[]
              && RagSetting(config, "chunk_size").Some? && RagSetting(config, "store").Some?
              && (!embedderOk || RagSetting(config, "chunk_overlap").None?)
    ensures r.BuildFailed? ==> (r.build.EmbedderFailed? <==> !embedderOk)
    ensures r.Indexed? <==>
              && Settings.ValidateConfig(config).Ok? && Selection(old(sm.state), manifest, hashConfig(config), force) != map[]
              && RagSetting(config, "chunk_size").Some? && RagSetting(config, "store").Some?
              && embedderOk && RagSetting(config, "chunk_overlap").Some?
    ensures !r.Indexed? ==> sm.state == old(sm.state) && sm.disk == old(sm.disk) && store.entries == old(store.entries)
    ensures r.Indexed? ==>
              var files := Selection(old(sm.state), manifest, hashConfig(config), force);
              && r.files == files && files != map[]
              && RagSetting(config, "chunk_size").Some? && Settings.IsInt(RagSetting(config, "chunk_size").value)
              && RagSetting(config, "chunk_overlap").Some? && Settings.IsInt(RagSetting(config, "chunk_overlap").value)
              && (var size := Settings.IntOf(RagSetting(config, "chunk_size").value);
                  var overlap := Settings.IntOf(RagSetting(config, "chunk_overlap").value);
                  (store.entries, r.totalChunks) == ProcessFiles(old(store.entries), InOrder(order, files), size, overlap, env))
              && sm.state == IndexedState(old(sm.state), manifest, files, hashConfig(config), now, r.totalChunks)
              && sm.disk == State.Stored(sm.state)
  {
    var validation := Settings.ValidateConfig(config);
    if !validation.Ok? {
      return InvalidConfig(validation);
    }
    ValidatedChunkSettings(config);
    var currentHash := hashConfig(config);
    var full := force;
    if sm.ConfigChanged(currentHash) {
      full := true;
    }
    if manifest == map[] {
      return EmptyManifest;
    }
    var files;
    if full {
      files := manifest;
    } else {
      files := sm.GetFilesToIndex(manifest);
      if files == map[] {
        return UpToDate;
      }
    }
    assert files == Selection(old(sm.state), manifest, currentHash, force);
    r := RunIndex(sm, store, config, manifest, files, InOrder(order, files), currentHash, now, embedderOk, env);
  }

  // ---------------------------------------------------------------------------------
  // What a run guarantees

  /** A changed configuration hash selects the whole manifest, whatever `force` says. */
  lemma ConfigChangeForcesFullIndex(s: State.ProjectState, manifest: map<string, string>, h: string, force: bool)
    requires State.ConfigChangedIn(s, h)
    ensures Selection(s, manifest, h, force) == manifest
  {
  }

  /** After a successful run the state records every selected file with its manifest
      hash, keeps every other indexed file, holds the current configuration hash and the
      index time, and its metadata says `total_files = |manifest|` and
      `total_chunks = 10 * |files|`, whatever the loop counted. */
  lemma IndexedStateRecords(s: State.ProjectState, manifest: map<string, string>, files: map<string, string>,
                            h: string, now: string, total: nat)
    ensures var t := IndexedState(s, manifest, files, h, now, total);
            && t.indexedFiles.Some?
            && (forall f | f in files :: f in t.indexedFiles.value && t.indexedFiles.value[f] == files[f])
            && (forall f | f in s.indexedFiles.GetOr(map[]) && f !in files ::
                  f in t.indexedFiles.value && t.indexedFiles.value[f] == s.indexedFiles.value[f])
            && !State.ConfigChangedIn(t, h)
            && t.lastIndex == Some(now) && t.lastScan == s.lastScan
            && Get(t.metadata.value, "total_files") == Some(VInt(|manifest|))
            && Get(t.metadata.value, "total_chunks") == Some(VInt(|files| * 10))
  {
    var built := Update(s.metadata.GetOr([]), [("total_chunks", VInt(total))]);
    var counts := [("total_files", VInt(|manifest|)), ("total_chunks", VInt(|files| * 10))];
    assert UniqueKeys(counts);
    assert Get(counts[1..], "total_chunks") == Some(VInt(|files| * 10));
    GetUpdate(built, counts, "total_files");
    GetUpdate(built, counts, "total_chunks");
  }

  /** Running again right after a successful run, with the same manifest and
      configuration, finds nothing to do. */
  lemma {:induction false} SecondRunIsUpToDate(s: State.ProjectState, manifest: map<string, string>, h: string,
                                               force: bool, now: string, total: nat)
    ensures var t := IndexedState(s, manifest, Selection(s, manifest, h, force), h, now, total);
            Selection(t, manifest, h, false) == map[]
  {
    var files := Selection(s, manifest, h, force);
    var indexed := s.indexedFiles.GetOr(map[]);
    if files == manifest {
      var after := indexed + manifest;
      assert State.FilesToIndex(manifest, after).Keys == {};
    } else {
      State.MarkingSelectedFilesConverges(manifest, indexed);
    }
  }

  /** A file that cannot be read leaves the store as it was and adds no chunks, yet it is
      among the selected files that a successful run marks as indexed. */
  lemma UnreadableFileIsSkippedButMarked(entries: map<string, VectorStore.Record>, f: string, size: int, overlap: int,
                                         env: Env, s: State.ProjectState, manifest: map<string, string>,
                                         files: map<string, string>, h: string, now: string, total: nat)
    requires env.read(f).None? && f in files
    ensures ProcessFile(entries, f, ReadChunks(f, size, overlap, env), env) == (entries, 0)
    ensures var t := IndexedState(s, manifest, files, h, now, total);
            f in t.indexedFiles.value && t.indexedFiles.value[f] == files[f]
  {
  }

  /** Old chunks go before new ones are added: once a file has been read and its
      (already resolved) path could be listed, every record left under that path comes
      from this run, and a file that now yields no chunks has none left. When listing
      the path's records fails, `delete_file_chunks` swallows the error and nothing is
      deleted: every old record survives, unchanged unless this run's batch reuses its id. */
  lemma ProcessFileReplacesChunks(entries: map<string, VectorStore.Record>, f: string, size: int, overlap: int,
                                  env: Env, id: string)
    requires env.read(f).Some?
    requires var p := Fs.PathStr(env.parse(f)); env.resolve(p) == p
    ensures var p := Fs.PathStr(env.parse(f));
            var after := ProcessFile(entries, f, ReadChunks(f, size, overlap, env), env).0;
            var chunks := FileChunks(f, env.read(f).value, size, overlap, env);
            && (!env.getFails(p) && id in after && VectorStore.StoredFile(after[id].metadata) == Some(SStr(p)) ==>
                  chunks != [] && VectorStore.AllHaveIdKeys(chunks) && id in Elems(VectorStore.BatchIds(chunks, env.md5)))
            && (!env.getFails(p) && chunks == [] ==>
                  forall k | k in after :: VectorStore.StoredFile(after[k].metadata) != Some(SStr(p)))
            && (env.getFails(p) && id in entries ==>
                  id in after
                  && (after[id] == entries[id]
                      || (VectorStore.AllHaveIdKeys(chunks) && id in Elems(VectorStore.BatchIds(chunks, env.md5)))))
  {
    var p := Fs.PathStr(env.parse(f));
    var cleared := if env.getFails(p) then entries else VectorStore.WithoutFile(entries, p);
    var chunks := FileChunks(f, env.read(f).value, size, overlap, env);
    if chunks != [] && env.embeds(VectorStore.Texts(chunks)) {
      VectorStore.AddResultContents(cleared, chunks, env.md5);
    }
  }

  // ---------------------------------------------------------------------------------
  // `ensure_project_indexed`

  /** Whether `ensure_project_indexed` scans and whether it then indexes.
      `manifestFile` is manifest.json before the scan (`None`: it does not exist),
      `manifest` what `load_manifest` returns after the scan, and `indexPresent` whether
      the index directory exists and holds anything. */
  function EnsureDecision(manifestFile: Option<map<string, string>>, indexPresent: bool, s: State.ProjectState,
                          currentHash: string, manifest: map<string, string>): (bool, bool)
  {
    var needsScan := manifestFile.None? || manifestFile.value == map[];
    var needsIndex :=
      if !indexPresent then true
      else if State.ConfigChangedIn(s, currentHash) then true
      else State.FilesToIndex(manifest, s.indexedFiles.GetOr(map[])) != map[];
    (needsScan, needsIndex)
  }

  /** `ensure_project_indexed` skips indexing exactly when the index exists and
      `index_project` without `force` would select nothing; so with a valid configuration
      and a non-empty manifest, skipping agrees with `index_project` answering
      `UpToDate`. A missing or empty manifest always triggers a scan. */
  lemma EnsureSkipsExactlyWhenUpToDate(manifestFile: Option<map<string, string>>, indexPresent: bool,
                                       s: State.ProjectState, h: string, manifest: map<string, string>)
    ensures var (needsScan, needsIndex) := EnsureDecision(manifestFile, indexPresent, s, h, manifest);
            && (needsScan <==> manifestFile.None? || manifestFile.value == map[])
            && (!needsIndex <==> indexPresent && !State.ConfigChangedIn(s, h)
                                 && State.FilesToIndex(manifest, s.indexedFiles.GetOr(map[])) == map[])
            && (manifest != map[] ==> (!needsIndex <==> indexPresent && Selection(s, manifest, h, false) == map[]))
  {
  }
}

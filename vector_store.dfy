/** The Chroma wrapper (bugtrace/rag/vector_store.py). Chroma itself is modelled as a map
    from chunk id to the stored record; MD5 is the uninterpreted parameter `md5` (text to
    hex digest), `Path.resolve` the parameter `resolve`, and the similarity ranking is
    the list of (id, score) hits the backend returns. Whether the backend's `get()` call
    fails is the input `getFails`. */
module VectorStore {
  import opened Strings
  import opened PyValue
  import Fs
  import Chunker

  /** One stored chunk: its text and its cleaned metadata (the vector is not modelled). */
  datatype Record = Record(text: string, metadata: Meta)

  /** One entry of `search`'s result. */
  datatype SearchResult = SearchResult(text: string, metadata: Meta, score: real)

  /** The dict `get_stats` returns. */
  datatype Stats = Stats(collectionName: string, totalChunks: nat, indexDir: string)

  datatype AddOutcome =
    | Added
    /** `chunk['metadata']['file']` or `['chunk_id']` raised KeyError */
    | MissingIdKey(index: nat)
    /** Chroma refused the batch because an id repeats */
    | Rejected

  /** The project name as cleaned for the collection name: lower-cased, every
      non-alphanumeric character replaced by '_'. */
  function CleanName(name: string): (r: string)
    ensures |r| == |name|
    ensures forall i | 0 <= i < |r| :: IsAlnum(r[i]) || r[i] == '_'
    ensures forall i | 0 <= i < |r| :: IsAlnum(LowerChar(name[i])) ==> r[i] == LowerChar(name[i])
    ensures forall i | 0 <= i < |r| :: !IsAlnum(LowerChar(name[i])) ==> r[i] == '_'
  {
    var lowered := Lower(name);
    seq(|lowered|, i requires 0 <= i < |lowered| => if IsAlnum(lowered[i]) then lowered[i] else '_')
  }

  /** A cleaned name is clean already: cleaning it again changes nothing. */
  lemma CleanNameIdempotent(name: string)
    ensures CleanName(CleanName(name)) == CleanName(name)
  {
    var r := CleanName(name);
    forall i | 0 <= i < |r| ensures CleanName(r)[i] == r[i] {
      assert LowerChar(r[i]) == r[i];
    }
  }

  /** `_generate_collection_name()`: `<clean project name>_<first 8 hex digits of the MD5
      of the project path>`. */
  function CollectionName(projectRoot: Fs.Path, md5: string -> string): (r: string)
    ensures var n := |Fs.Name(projectRoot)|;
            && n < |r|
            && r[..n] == CleanName(Fs.Name(projectRoot))
            && r[n] == '_'
            && r[n + 1..] == Take(md5(Fs.PathStr(projectRoot)), 8)
            && |r| <= n + 9
  {
    CleanName(Fs.Name(projectRoot)) + "_" + Take(md5(Fs.PathStr(projectRoot)), 8)
  }

  /** The metadata value Chroma keeps for a chunk value: none for None, lists and dicts;
      a bool as it is; anything else as its `str`. */
  function CleanValue(v: Value): Option<Scalar> {
    match v
    case VNone => None
    case VList(_) => None
    case VDict(_) => None
    case VBool(b) => Some(SBool(b))
    case _ => Some(SStr(Str(v)))
  }

  /** The `clean_metadata` comprehension. */
  function CleanMetadata(md: Dict): (r: Meta)
    ensures |r| <= |md|
  {
    if md == [] then []
    else
      var rest := CleanMetadata(md[1..]);
      match CleanValue(md[0].1)
      case None => rest
      case Some(s) => [(md[0].0, s)] + rest
  }

  /** Cleaning keeps exactly the keys whose value is not None, a list or a dict; a kept
      bool stays a bool and every other kept value becomes its `str`. */
  lemma {:induction false} CleanMetadataLookup(md: Dict, k: string)
    requires UniqueKeys(md)
    ensures Get(CleanMetadata(md), k) == match Get(md, k) case None => None case Some(v) => CleanValue(v)
  {
    if md != [] {
      var rest := md[1..];
      assert UniqueKeys(rest) by {
        forall i, j | 0 <= i < j < |rest| ensures rest[i].0 != rest[j].0 {
          assert rest[i] == md[i + 1] && rest[j] == md[j + 1];
        }
      }
      CleanMetadataLookup(rest, k);
      if md[0].0 == k {
        assert !Has(rest, k);
        assert Get(CleanMetadata(rest), k).None?;
      }
    }
  }

  /** The chunk metadata has both keys the id is made of. */
  predicate HasIdKeys(md: Dict) {
    Has(md, "file") && Has(md, "chunk_id")
  }

  /** The text hashed into a chunk's id, `f"{file}_{chunk_id}"`. */
  function IdText(md: Dict): string
    requires HasIdKeys(md)
  {
    Str(Get(md, "file").value) + "_" + Str(Get(md, "chunk_id").value)
  }

  /** For a chunk made by `chunk_file`, the id is the MD5 of the file path, '_' and the
      chunk number. */
  lemma ChunkerChunkIdText(file: string, i: nat, language: string, total: nat)
    ensures HasIdKeys(Chunker.ChunkMetadata(file, i, language, total))
    ensures IdText(Chunker.ChunkMetadata(file, i, language, total)) == file + "_" + IntToString(i)
  {
    Chunker.ChunkMetadataLookup(file, i, language, total);
  }

  predicate AllHaveIdKeys(chunks: seq<Chunker.Chunk>) {
    forall i | 0 <= i < |chunks| :: HasIdKeys(chunks[i].metadata)
  }

  /** The position of the first chunk whose metadata lacks `file` or `chunk_id`. */
  function FirstWithoutIdKeys(chunks: seq<Chunker.Chunk>): (r: Option<nat>)
    ensures r.None? <==> AllHaveIdKeys(chunks)
    ensures r.Some? ==> r.value < |chunks| && !HasIdKeys(chunks[r.value].metadata)
                        && forall k | 0 <= k < r.value :: HasIdKeys(chunks[k].metadata)
  {
    if chunks == [] then None
    else if !HasIdKeys(chunks[0].metadata) then Some(0)
    else match FirstWithoutIdKeys(chunks[1..])
      case None => None
      case Some(i) => Some(i + 1)
  }

  /** Every chunk of a batch has both id keys, so has every prefix of it. */
  lemma AllHaveIdKeysPrefix(chunks: seq<Chunker.Chunk>, n: nat)
    requires AllHaveIdKeys(chunks) && n <= |chunks|
    ensures AllHaveIdKeys(chunks[..n])
  {
    forall k | 0 <= k < n ensures HasIdKeys(chunks[..n][k].metadata) { assert chunks[..n][k] == chunks[k]; }
  }

  /** The `ids` list for a batch whose chunks all have both id keys. */
  function BatchIds(chunks: seq<Chunker.Chunk>, md5: string -> string): (ids: seq<string>)
    requires AllHaveIdKeys(chunks)
    ensures |ids| == |chunks|
  {
    if chunks == [] then []
    else
      AllHaveIdKeysPrefix(chunks, |chunks| - 1);
      BatchIds(chunks[..|chunks| - 1], md5) + [md5(IdText(chunks[|chunks| - 1].metadata))]
  }

  /** The `metadatas` list for a batch. */
  function BatchMetadatas(chunks: seq<Chunker.Chunk>): (mds: seq<Meta>)
    ensures |mds| == |chunks|
  {
    if chunks == [] then []
    else BatchMetadatas(chunks[..|chunks| - 1]) + [CleanMetadata(chunks[|chunks| - 1].metadata)]
  }

  /** The i-th id is the MD5 of the i-th chunk's id text: the ids stay aligned with the
      chunks. */
  lemma {:induction false} BatchIdAt(chunks: seq<Chunker.Chunk>, md5: string -> string, i: int)
    requires AllHaveIdKeys(chunks)
    requires 0 <= i < |chunks|
    ensures BatchIds(chunks, md5)[i] == md5(IdText(chunks[i].metadata))
  {
    var n := |chunks| - 1;
    AllHaveIdKeysPrefix(chunks, n);
    var prev := BatchIds(chunks[..n], md5);
    assert BatchIds(chunks, md5) == prev + [md5(IdText(chunks[n].metadata))];
    if i < n {
      BatchIdAt(chunks[..n], md5, i);
      assert chunks[..n][i] == chunks[i];
    }
  }

  /** The i-th metadata is the i-th chunk's cleaned metadata. */
  lemma {:induction false} BatchMetadataAt(chunks: seq<Chunker.Chunk>, i: int)
    requires 0 <= i < |chunks|
    ensures BatchMetadatas(chunks)[i] == CleanMetadata(chunks[i].metadata)
  {
    var n := |chunks| - 1;
    if i < n {
      BatchMetadataAt(chunks[..n], i);
      assert chunks[..n][i] == chunks[i];
    }
  }

  /** One more chunk with both id keys extends the ids and the metadatas by its own. */
  lemma BatchStep(chunks: seq<Chunker.Chunk>, md5: string -> string, i: nat)
    requires i < |chunks| && AllHaveIdKeys(chunks[..i]) && HasIdKeys(chunks[i].metadata)
    ensures AllHaveIdKeys(chunks[..i + 1])
    ensures BatchIds(chunks[..i + 1], md5) == BatchIds(chunks[..i], md5) + [md5(IdText(chunks[i].metadata))]
    ensures BatchMetadatas(chunks[..i + 1]) == BatchMetadatas(chunks[..i]) + [CleanMetadata(chunks[i].metadata)]
  {
    var next := chunks[..i + 1];
    assert next[..i] == chunks[..i] && next[i] == chunks[i];
    forall k | 0 <= k < |next| ensures HasIdKeys(next[k].metadata) {
      if k < i { assert next[k] == chunks[..i][k]; }
    }
  }

  /** The three lists `add_chunks` hands to Chroma, in chunk order; or the position of
      the first chunk whose metadata lacks `file` or `chunk_id`. */
  method PrepareBatch(chunks: seq<Chunker.Chunk>, md5: string -> string)
    returns (ids: seq<string>, texts: seq<string>, metadatas: seq<Meta>, missing: Option<nat>)
    ensures missing == FirstWithoutIdKeys(chunks)
    ensures missing.None? ==>
              && ids == BatchIds(chunks, md5)
              && metadatas == BatchMetadatas(chunks)
              && texts == Texts(chunks)
  {
    texts := Texts(chunks);
    ids, metadatas := [], [];
    var i := 0;
    while i < |chunks|
      invariant 0 <= i <= |chunks|
      invariant AllHaveIdKeys(chunks[..i])
      invariant ids == BatchIds(chunks[..i], md5)
      invariant metadatas == BatchMetadatas(chunks[..i])
    {
      var metadata := chunks[i].metadata;
      if !HasIdKeys(metadata) {
        forall k | 0 <= k < i ensures HasIdKeys(chunks[k].metadata) {
          assert chunks[..i][k] == chunks[k];
        }
        FirstWithoutIdKeysUnique(chunks, i);
        return ids, texts, metadatas, Some(i);
      }
      BatchStep(chunks, md5, i);
      var chunkId := IdText(metadata);
      ids := ids + [md5(chunkId)];
      metadatas := metadatas + [CleanMetadata(metadata)];
      i := i + 1;
    }
    assert chunks[..i] == chunks;
    missing := None;
  }

  /** A position holding the first chunk without id keys is the one
      `FirstWithoutIdKeys` finds. */
  lemma FirstWithoutIdKeysUnique(chunks: seq<Chunker.Chunk>, i: nat)
    requires i < |chunks| && !HasIdKeys(chunks[i].metadata)
    requires forall k | 0 <= k < i :: HasIdKeys(chunks[k].metadata)
    ensures FirstWithoutIdKeys(chunks) == Some(i)
  {
  }

  /** The `texts` list. */
  function Texts(chunks: seq<Chunker.Chunk>): (texts: seq<string>)
    ensures |texts| == |chunks| && forall i | 0 <= i < |chunks| :: texts[i] == chunks[i].text
  {
    seq(|chunks|, i requires 0 <= i < |chunks| => chunks[i].text)
  }

  /** No id occurs twice. */
  predicate Distinct(ids: seq<string>) {
    forall i, j | 0 <= i < j < |ids| :: ids[i] != ids[j]
  }

  /** The store after writing a batch: each id maps to its record, replacing any
      previous record under that id (Chroma's `upsert`). */
  function Upsert(entries: map<string, Record>, ids: seq<string>, texts: seq<string>,
                  metadatas: seq<Meta>): (r: map<string, Record>)
    requires |ids| == |texts| == |metadatas|
    ensures r.Keys == entries.Keys + Elems(ids)
  {
    if ids == [] then entries
    else
      var n := |ids| - 1;
      var prev := Upsert(entries, ids[..n], texts[..n], metadatas[..n]);
      assert ids == ids[..n] + [ids[n]];
      ElemsAppend(ids[..n], [ids[n]]);
      assert Elems([ids[n]]) == {ids[n]};
      prev[ids[n] := Record(texts[n], metadatas[n])]
  }

  /** A record whose id is not in the batch is kept. */
  lemma {:induction false} UpsertKeeps(entries: map<string, Record>, ids: seq<string>, texts: seq<string>,
                                       metadatas: seq<Meta>, id: string)
    requires |ids| == |texts| == |metadatas|
    requires id in entries && id !in Elems(ids)
    ensures Upsert(entries, ids, texts, metadatas)[id] == entries[id]
    decreases |ids|
  {
    if ids != [] {
      var n := |ids| - 1;
      assert ids[n] in Elems(ids);
      assert id !in Elems(ids[..n]) by { ElemsAppend(ids[..n], [ids[n]]); assert ids == ids[..n] + [ids[n]]; }
      UpsertKeeps(entries, ids[..n], texts[..n], metadatas[..n], id);
    }
  }

  /** With distinct ids, the i-th id holds the i-th text and metadata. */
  lemma {:induction false} UpsertAt(entries: map<string, Record>, ids: seq<string>, texts: seq<string>,
                                    metadatas: seq<Meta>, i: nat)
    requires |ids| == |texts| == |metadatas| && Distinct(ids) && i < |ids|
    ensures Upsert(entries, ids, texts, metadatas)[ids[i]] == Record(texts[i], metadatas[i])
    decreases |ids|
  {
    var n := |ids| - 1;
    if i < n {
      assert Distinct(ids[..n]) by {
        forall a, b | 0 <= a < b < n ensures ids[..n][a] != ids[..n][b] { assert ids[..n][a] == ids[a]; }
      }
      assert ids[..n][i] == ids[i];
      UpsertAt(entries, ids[..n], texts[..n], metadatas[..n], i);
    }
  }

  /** The `file` a stored record belongs to, as `metadata.get('file')`. */
  function StoredFile(md: Meta): Option<Scalar> {
    Get(md, "file")
  }

  /** What `add_chunks` does to the store and what it reports. */
  function AddResult(entries: map<string, Record>, chunks: seq<Chunker.Chunk>, md5: string -> string)
    : (map<string, Record>, AddOutcome)
  {
    if chunks == [] then (entries, Added)
    else match FirstWithoutIdKeys(chunks)
      case Some(i) => (entries, MissingIdKey(i))
      case None =>
        var ids := BatchIds(chunks, md5);
        if !Distinct(ids) then (entries, Rejected)
        else (Upsert(entries, ids, Texts(chunks), BatchMetadatas(chunks)), Added)
  }

  /** `add_chunks([])` changes nothing; a batch with a chunk lacking an id key or with a
      repeated id changes nothing; otherwise every chunk is stored under the MD5 of its
      `"{file}_{chunk_id}"` with its text and cleaned metadata, and every other record is
      kept. */
  lemma AddResultContents(entries: map<string, Record>, chunks: seq<Chunker.Chunk>, md5: string -> string)
    ensures var (after, outcome) := AddResult(entries, chunks, md5);
            && (chunks == [] ==> outcome == Added && after == entries)
            && (!outcome.Added? ==> after == entries)
            && (chunks != [] ==> (outcome.MissingIdKey? <==> !AllHaveIdKeys(chunks)))
            && (outcome.Rejected? <==> chunks != [] && AllHaveIdKeys(chunks) && !Distinct(BatchIds(chunks, md5)))
            && (outcome.Added? && chunks != [] ==>
                  && AllHaveIdKeys(chunks)
                  && var ids := BatchIds(chunks, md5);
                     && Distinct(ids)
                     && after.Keys == entries.Keys + Elems(ids)
                     && (forall id | id in entries && id !in Elems(ids) :: after[id] == entries[id])
                     && forall i | 0 <= i < |chunks| ::
                          after[ids[i]] == Record(chunks[i].text, CleanMetadata(chunks[i].metadata)))
  {
    if chunks != [] && AllHaveIdKeys(chunks) {
      var ids := BatchIds(chunks, md5);
      if Distinct(ids) {
        var after := Upsert(entries, ids, Texts(chunks), BatchMetadatas(chunks));
        forall id | id in entries && id !in Elems(ids) ensures after[id] == entries[id] {
          UpsertKeeps(entries, ids, Texts(chunks), BatchMetadatas(chunks), id);
        }
        forall i | 0 <= i < |chunks|
          ensures after[ids[i]] == Record(chunks[i].text, CleanMetadata(chunks[i].metadata)) {
          BatchMetadataAt(chunks, i);
          UpsertAt(entries, ids, Texts(chunks), BatchMetadatas(chunks), i);
        }
      }
    }
  }

  /** A refused batch leaves the store as it was. */
  lemma AddResultRefusedKeeps(entries: map<string, Record>, chunks: seq<Chunker.Chunk>, md5: string -> string)
    ensures !AddResult(entries, chunks, md5).1.Added? ==> AddResult(entries, chunks, md5).0 == entries
  {
  }

  /** The store without the records whose `file` is `path`. */
  function WithoutFile(entries: map<string, Record>, path: string): map<string, Record> {
    map id | id in entries && StoredFile(entries[id].metadata) != Some(SStr(path)) :: entries[id]
  }

  class VectorStore {
    const indexDir: string
    const collectionName: string
    /** The Chroma collection: id -> record. */
    var entries: map<string, Record>

    /** `VectorStore(index_dir, project_root, embedder)` opening a collection that
        already holds `existing`. */
    constructor (indexDir: string, projectRoot: Fs.Path, md5: string -> string, existing: map<string, Record>)
      ensures this.indexDir == indexDir
      ensures collectionName == CollectionName(projectRoot, md5)
      ensures entries == existing
    {
      this.indexDir := indexDir;
      collectionName := CollectionName(projectRoot, md5);
      entries := existing;
    }

    /** `add_chunks(chunks, embeddings_list)`; the vectors are handed to the backend and
        are not modelled. */
    method AddChunks(chunks: seq<Chunker.Chunk>, md5: string -> string)
      returns (r: AddOutcome)
      modifies this
      ensures (entries, r) == AddResult(old(entries), chunks, md5)
    {
      if chunks == [] {
        return Added;
      }
      var ids, texts, metadatas, missing := PrepareBatch(chunks, md5);
      if missing.Some? {
        return MissingIdKey(missing.value);
      }
      if !Distinct(ids) {
        return Rejected;
      }
      entries := Upsert(entries, ids, texts, metadatas);
      r := Added;
    }

    /** `delete_file_chunks(filepath)`: drops every record whose `file` is the resolved
        path; when the backend's `get()` fails the error is swallowed and nothing is
        deleted. */
    method DeleteFileChunks(filepath: string, resolve: string -> string, getFails: bool)
      modifies this
      ensures entries == if getFails then old(entries) else WithoutFile(old(entries), resolve(filepath))
    {
      var path := resolve(filepath);
      if getFails {
        return;
      }
      var idsToDelete := FileIds(entries, path);
      ghost var kept := WithoutFile(entries, path);
      if idsToDelete != {} {
        entries := map id | id in entries && id !in idsToDelete :: entries[id];
        assert entries.Keys == kept.Keys;
      } else {
        assert entries.Keys == kept.Keys;
      }
    }

    /** `search(query, top_k)` given the backend's ranked hits. */
    method Search(query: string, topK: int, hits: seq<(string, real)>) returns (results: seq<SearchResult>)
      requires forall h | h in hits :: h.0 in entries
      ensures |results| == |hits|
      ensures forall i | 0 <= i < |hits| ::
                results[i] == SearchResult(entries[hits[i].0].text, entries[hits[i].0].metadata, hits[i].1)
    {
      var store := entries;
      results := seq(|hits|, i requires 0 <= i < |hits| && hits[i].0 in store =>
        SearchResult(store[hits[i].0].text, store[hits[i].0].metadata, hits[i].1));
    }

    /** `get_stats()` */
    method GetStats(getFails: bool) returns (stats: Stats)
      ensures stats.collectionName == collectionName && stats.indexDir == indexDir
      ensures stats.totalChunks == if getFails then 0 else |entries.Keys|
    {
      var count := if getFails then 0 else |entries.Keys|;
      stats := Stats(collectionName, count, indexDir);
    }
  }

  /** The ids whose stored `file` is `path`: the `ids_to_delete` comprehension over the
      backend's listing. */
  method FileIds(entries: map<string, Record>, path: string) returns (ids: set<string>)
    ensures ids == set id | id in entries && StoredFile(entries[id].metadata) == Some(SStr(path))
  {
    ids := {};
    var remaining := entries.Keys;
    while remaining != {}
      invariant remaining <= entries.Keys
      invariant ids == set id | id in entries && id !in remaining && StoredFile(entries[id].metadata) == Some(SStr(path))
      decreases |remaining|
    {
      var id :| id in remaining;
      if StoredFile(entries[id].metadata) == Some(SStr(path)) {
        ids := ids + {id};
      }
      remaining := remaining - {id};
    }
  }

  /** Deleting a file's chunks leaves no record of that file and keeps every record of
      every other file. */
  lemma DeleteKeepsOtherFiles(entries: map<string, Record>, path: string, id: string)
    ensures id in WithoutFile(entries, path) ==> StoredFile(WithoutFile(entries, path)[id].metadata) != Some(SStr(path))
    ensures id in entries && StoredFile(entries[id].metadata) != Some(SStr(path)) ==>
              id in WithoutFile(entries, path) && WithoutFile(entries, path)[id] == entries[id]
  {
  }
}

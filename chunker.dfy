/** File chunking (bugtrace/rag/chunker.py): the splitter chosen by file suffix and cached
    per language, the metadata attached to every chunk, and the Python-only enhancement
    that tags each chunk with the first definition it mentions.

    The LangChain splitter is the parameter `split`, which maps a splitter configuration
    and a text to its pieces; `ast.parse` followed by the `ast.walk` filter is the input
    `parsed`: `None` for a syntax error, otherwise the function and class definitions in
    walk order. */
module Chunker {
  import opened Strings
  import opened PyValue
  import Fs

  /** The values of LANGUAGE_MAP. */
  datatype Language =
    | Python | Js | Java | Cpp | C | CSharp | Go | Rust | Ruby | Php | Swift | Kotlin | Scala | Html | Markdown

  /** `LANGUAGE_MAP.get(suffix)` */
  function LanguageOf(suffix: string): Option<Language> {
    if suffix == ".py" then Some(Python)
    else if suffix in {".js", ".ts", ".jsx", ".tsx"} then Some(Js)
    else if suffix == ".java" then Some(Java)
    else if suffix == ".cpp" then Some(Cpp)
    else if suffix == ".c" then Some(C)
    else if suffix == ".cs" then Some(CSharp)
    else if suffix == ".go" then Some(Go)
    else if suffix == ".rs" then Some(Rust)
    else if suffix == ".rb" then Some(Ruby)
    else if suffix == ".php" then Some(Php)
    else if suffix == ".swift" then Some(Swift)
    else if suffix == ".kt" then Some(Kotlin)
    else if suffix == ".scala" then Some(Scala)
    else if suffix == ".html" then Some(Html)
    else if suffix == ".md" then Some(Markdown)
    else None
  }

  /** The keys of the splitter cache: a language, or 'text' for the generic splitter. */
  datatype SplitterKey = LangKey(lang: Language) | TextKey

  /** A splitter as configured: code-aware for a language, or generic with its
      separator list. */
  datatype Splitter =
    | CodeSplitter(lang: Language, chunkSize: int, chunkOverlap: int)
    | TextSplitter(chunkSize: int, chunkOverlap: int, separators: seq<string>)

  /** Paragraphs, lines, sentence ends, '!', '?', ';', ',', spaces, then characters. */
  const TextSeparators: seq<string> := ["\n\n", "\n", ". ", "! ", "? ", "; ", ", ", " ", ""]

  /** The cache key for a (lower-cased) suffix. */
  function KeyFor(suffix: string): (k: SplitterKey)
    ensures k.LangKey? <==> LanguageOf(suffix).Some?
    ensures k.LangKey? ==> k.lang == LanguageOf(suffix).value
  {
    match LanguageOf(suffix)
    case Some(lang) => LangKey(lang)
    case None => TextKey
  }

  /** The splitter built on a cache miss. */
  function Build(key: SplitterKey, chunkSize: int, chunkOverlap: int): Splitter {
    match key
    case LangKey(lang) => CodeSplitter(lang, chunkSize, chunkOverlap)
    case TextKey => TextSplitter(chunkSize, chunkOverlap, TextSeparators)
  }

  datatype Chunk = Chunk(text: string, metadata: Dict)

  /** The metadata `chunk_file` gives the i-th of `total` chunks. */
  function ChunkMetadata(file: string, i: nat, language: string, total: nat): Dict {
    [("file", VStr(file)), ("chunk_id", VInt(i)), ("language", VStr(language)), ("total_chunks", VInt(total))]
  }

  /** The lower-cased suffix of a file, as `chunk_file` uses it. */
  function LowerSuffix(filepath: Fs.Path): string {
    Lower(Suffix(Fs.Name(filepath)))
  }

  lemma ChunkMetadataLookup(file: string, i: nat, language: string, total: nat)
    ensures var md := ChunkMetadata(file, i, language, total);
            && Get(md, "file") == Some(VStr(file))
            && Get(md, "chunk_id") == Some(VInt(i))
            && Get(md, "language") == Some(VStr(language))
            && Get(md, "total_chunks") == Some(VInt(total))
            && Keys(md) == ["file", "chunk_id", "language", "total_chunks"]
  {
    var md := ChunkMetadata(file, i, language, total);
    var rest := md[2..];
    assert rest == [("language", VStr(language)), ("total_chunks", VInt(total))];
    assert Get(rest[1..], "total_chunks") == Some(VInt(total));
    assert Get(rest, "total_chunks") == Some(VInt(total));
    assert Get(md[1..], "total_chunks") == Get(rest, "total_chunks") by { assert md[1..][1..] == rest; }
    assert Get(md[1..], "language") == Get(rest, "language") by { assert md[1..][1..] == rest; }
    assert Keys(md) == ["file", "chunk_id", "language", "total_chunks"];
  }

  /** What `Chunker.chunk_file` returns: nothing for blank content, otherwise one chunk
      per splitter piece, in order, each numbered and carrying the file, the language
      (the suffix without its dot) and the number of pieces. */
  function BaseChunks(filepath: Fs.Path, content: string, chunkSize: int, chunkOverlap: int,
                      split: (Splitter, string) -> seq<string>): (r: seq<Chunk>)
    ensures AllSpace(content) ==> r == []
    ensures !AllSpace(content) ==> |r| == |split(Build(KeyFor(LowerSuffix(filepath)), chunkSize, chunkOverlap), content)|
  {
    if AllSpace(content) then []
    else
      var suffix := LowerSuffix(filepath);
      var pieces := split(Build(KeyFor(suffix), chunkSize, chunkOverlap), content);
      seq(|pieces|, i requires 0 <= i < |pieces| =>
        Chunk(pieces[i], ChunkMetadata(Fs.PathStr(filepath), i, Fs.LStripDots(suffix), |pieces|)))
  }

  /** Chunk i holds the i-th splitter piece and exactly the four metadata keys: the file,
      its number i, the language (the lower-cased suffix without its dot) and the number
      of pieces. */
  lemma BaseChunksMetadata(filepath: Fs.Path, content: string, chunkSize: int, chunkOverlap: int,
                           split: (Splitter, string) -> seq<string>, i: nat)
    requires !AllSpace(content)
    requires i < |BaseChunks(filepath, content, chunkSize, chunkOverlap, split)|
    ensures var r := BaseChunks(filepath, content, chunkSize, chunkOverlap, split);
            var pieces := split(Build(KeyFor(LowerSuffix(filepath)), chunkSize, chunkOverlap), content);
            && r[i].text == pieces[i]
            && Get(r[i].metadata, "file") == Some(VStr(Fs.PathStr(filepath)))
            && Get(r[i].metadata, "chunk_id") == Some(VInt(i))
            && Get(r[i].metadata, "language") == Some(VStr(Fs.LStripDots(LowerSuffix(filepath))))
            && Get(r[i].metadata, "total_chunks") == Some(VInt(|pieces|))
            && Keys(r[i].metadata) == ["file", "chunk_id", "language", "total_chunks"]
  {
    var pieces := split(Build(KeyFor(LowerSuffix(filepath)), chunkSize, chunkOverlap), content);
    ChunkMetadataLookup(Fs.PathStr(filepath), i, Fs.LStripDots(LowerSuffix(filepath)), |pieces|);
  }

  /** The pieces of the splitter for the file's suffix, numbered, are its chunks. */
  lemma NumberedPiecesAreBaseChunks(filepath: Fs.Path, content: string, chunkSize: int, chunkOverlap: int,
                                    split: (Splitter, string) -> seq<string>, result: seq<Chunk>)
    requires !AllSpace(content)
    requires var pieces := split(Build(KeyFor(LowerSuffix(filepath)), chunkSize, chunkOverlap), content);
             && |result| == |pieces|
             && forall k | 0 <= k < |pieces| ::
                  result[k] == Chunk(pieces[k], ChunkMetadata(Fs.PathStr(filepath), k, Fs.LStripDots(LowerSuffix(filepath)), |pieces|))
    ensures result == BaseChunks(filepath, content, chunkSize, chunkOverlap, split)
  {
  }

  /** The loop of `chunk_file` that wraps every splitter piece with its metadata. */
  method NumberChunks(chunks: seq<string>, file: string, language: string) returns (result: seq<Chunk>)
    ensures |result| == |chunks|
    ensures forall k | 0 <= k < |chunks| :: result[k] == Chunk(chunks[k], ChunkMetadata(file, k, language, |chunks|))
  {
    result := [];
    var i := 0;
    while i < |chunks|
      invariant 0 <= i <= |chunks|
      invariant |result| == i
      invariant forall k | 0 <= k < i :: result[k] == Chunk(chunks[k], ChunkMetadata(file, k, language, |chunks|))
    {
      result := result + [Chunk(chunks[i], ChunkMetadata(file, i, language, |chunks|))];
      i := i + 1;
    }
  }

  class Chunker {
    const chunkSize: int
    const chunkOverlap: int
    /** `_splitters` */
    var splitters: map<SplitterKey, Splitter>

    /** Every cached splitter is the one built for its key with this chunker's sizes. */
    predicate Valid()
      reads this
    {
      forall k | k in splitters :: splitters[k] == Build(k, chunkSize, chunkOverlap)
    }

    constructor (chunkSize: int, chunkOverlap: int)
      ensures this.chunkSize == chunkSize && this.chunkOverlap == chunkOverlap
      ensures splitters == map[] && Valid()
    {
      this.chunkSize := chunkSize;
      this.chunkOverlap := chunkOverlap;
      splitters := map[];
    }

    /** `_get_code_splitter(language)`: built once per language, then reused. */
    method GetCodeSplitter(lang: Language) returns (splitter: Splitter)
      requires Valid()
      modifies this
      ensures Valid()
      ensures splitter == Build(LangKey(lang), chunkSize, chunkOverlap)
      ensures splitters == old(splitters)[LangKey(lang) := splitter]
      ensures LangKey(lang) in old(splitters) ==> splitters == old(splitters)
    {
      if LangKey(lang) !in splitters {
        splitters := splitters[LangKey(lang) := CodeSplitter(lang, chunkSize, chunkOverlap)];
      }
      splitter := splitters[LangKey(lang)];
    }

    /** `_get_text_splitter()`: built once, then reused. */
    method GetTextSplitter() returns (splitter: Splitter)
      requires Valid()
      modifies this
      ensures Valid()
      ensures splitter == Build(TextKey, chunkSize, chunkOverlap)
      ensures splitters == old(splitters)[TextKey := splitter]
      ensures TextKey in old(splitters) ==> splitters == old(splitters)
    {
      if TextKey !in splitters {
        splitters := splitters[TextKey := TextSplitter(chunkSize, chunkOverlap, TextSeparators)];
      }
      splitter := splitters[TextKey];
    }

    /** `Chunker.chunk_file(filepath, content)` */
    method ChunkFile(filepath: Fs.Path, content: string, split: (Splitter, string) -> seq<string>)
      returns (result: seq<Chunk>)
      requires Valid()
      modifies this
      ensures Valid()
      ensures result == BaseChunks(filepath, content, chunkSize, chunkOverlap, split)
      ensures AllSpace(content) ==> splitters == old(splitters)
      ensures !AllSpace(content) ==>
                var key := KeyFor(LowerSuffix(filepath));
                splitters == old(splitters)[key := Build(key, chunkSize, chunkOverlap)]
    {
      if Strip(content) == [] {
        return [];
      }
      var suffix := LowerSuffix(filepath);
      var splitter;
      match KeyFor(suffix) {
        case LangKey(lang) =>
          splitter := GetCodeSplitter(lang);
        case TextKey =>
          splitter := GetTextSplitter();
      }
      var chunks := split(splitter, content);
      result := NumberChunks(chunks, Fs.PathStr(filepath), Fs.LStripDots(suffix));
      NumberedPiecesAreBaseChunks(filepath, content, chunkSize, chunkOverlap, split, result);
    }

    /** `EnhancedChunker.chunk_file(filepath, content)`: the plain chunks, enhanced only
        when the suffix is exactly ".py" (an upper-case ".PY" is chunked with the Python
        splitter but not enhanced). */
    method EnhancedChunkFile(filepath: Fs.Path, content: string, split: (Splitter, string) -> seq<string>,
                             parsed: Option<seq<Definition>>)
      returns (result: seq<Chunk>)
      requires Valid()
      modifies this
      ensures Valid()
      ensures var base := BaseChunks(filepath, content, chunkSize, chunkOverlap, split);
              && |result| == |base|
              && (Suffix(Fs.Name(filepath)) != ".py" || parsed.None? ==> result == base)
              && (Suffix(Fs.Name(filepath)) == ".py" && parsed.Some? ==>
                    forall i | 0 <= i < |result| :: result[i] == Enhanced(base[i], parsed.value))
    {
      result := ChunkFile(filepath, content, split);
      if Suffix(Fs.Name(filepath)) == ".py" {
        var chunks := new Chunk[|result|](i requires 0 <= i < |result| => result[i]);
        assert forall k | 0 <= k < |result| :: chunks[k] == result[k];
        assert chunks[..] == result;
        EnhancePythonChunks(chunks, parsed);
        result := chunks[..];
      }
    }
  }

  // ----- EnhancedChunker -----

  datatype DefKind = FunctionDef | ClassDef

  /** One entry of the `definitions` list. */
  datatype Definition = Definition(kind: DefKind, name: string, lineStart: int, lineEnd: int,
                                   docstring: Option<string>)

  /** The heuristic of the matching loop: the chunk text contains `def name` or
      `class name`. */
  predicate Mentions(text: string, d: Definition) {
    Contains(text, "def " + d.name) || Contains(text, "class " + d.name)
  }

  /** The position of the first definition the text mentions. */
  function FirstMatch(text: string, defs: seq<Definition>): (r: Option<nat>)
    ensures r.Some? ==> r.value < |defs| && Mentions(text, defs[r.value])
    ensures r.Some? ==> forall j | 0 <= j < r.value :: !Mentions(text, defs[j])
    ensures r.None? ==> forall j | 0 <= j < |defs| :: !Mentions(text, defs[j])
  {
    if defs == [] then None
    else if Mentions(text, defs[0]) then Some(0)
    else match FirstMatch(text, defs[1..])
      case None => None
      case Some(j) => Some(j + 1)
  }

  /** `defn['type']` */
  function KindName(k: DefKind): string {
    match k
    case FunctionDef => "function"
    case ClassDef => "class"
  }

  /** The keys written into a matched chunk's metadata. */
  function DefinitionMetadata(d: Definition): Dict {
    [("definition_type", VStr(KindName(d.kind))), ("definition_name", VStr(d.name)),
     ("has_docstring", VBool(d.docstring.Some?))]
  }

  /** A chunk matched to `d`: the definition keys are merged into its metadata (every
      other key keeps its value) and `# name: docstring` plus a blank line is put in
      front of the text when the docstring is non-empty and not already in the text. */
  function EnhanceChunk(c: Chunk, d: Definition): (r: Chunk)
    ensures forall k :: Get(r.metadata, k) ==
              if Has(DefinitionMetadata(d), k) then Get(DefinitionMetadata(d), k) else Get(c.metadata, k)
    ensures d.docstring.Some? && d.docstring.value != "" && !Contains(c.text, d.docstring.value) ==>
              r.text == "# " + d.name + ": " + d.docstring.value + "\n\n" + c.text
    ensures !(d.docstring.Some? && d.docstring.value != "" && !Contains(c.text, d.docstring.value)) ==>
              r.text == c.text
  {
    var extra := DefinitionMetadata(d);
    DefinitionMetadataLookup(d);
    forall k ensures Get(Update(c.metadata, extra), k) == if Has(extra, k) then Get(extra, k) else Get(c.metadata, k) {
      GetUpdate(c.metadata, extra, k);
    }
    var text :=
      if d.docstring.Some? && d.docstring.value != "" && !Contains(c.text, d.docstring.value)
      then "# " + d.name + ": " + d.docstring.value + "\n\n" + c.text
      else c.text;
    Chunk(text, Update(c.metadata, extra))
  }

  /** The three definition keys, with their values; no other key is written. */
  lemma DefinitionMetadataLookup(d: Definition)
    ensures var extra := DefinitionMetadata(d);
            && UniqueKeys(extra)
            && Get(extra, "definition_type") == Some(VStr(KindName(d.kind)))
            && Get(extra, "definition_name") == Some(VStr(d.name))
            && Get(extra, "has_docstring") == Some(VBool(d.docstring.Some?))
            && forall k :: Has(extra, k) <==> k in ["definition_type", "definition_name", "has_docstring"]
  {
    var extra := DefinitionMetadata(d);
    assert extra[1..][1..] == [("has_docstring", VBool(d.docstring.Some?))];
    assert Get(extra[1..], "has_docstring") == Get(extra[1..][1..], "has_docstring");
    forall k ensures Has(extra, k) <==> k in ["definition_type", "definition_name", "has_docstring"] {
      if Has(extra, k) {
        var i :| 0 <= i < |extra| && extra[i].0 == k;
        assert i == 0 || i == 1 || i == 2;
      }
      if k == "definition_type" { assert extra[0].0 == k; }
      if k == "definition_name" { assert extra[1].0 == k; }
      if k == "has_docstring" { assert extra[2].0 == k; }
    }
  }

  /** A chunk after the matching loop: enhanced with the first definition it mentions,
      or unchanged when it mentions none. */
  function Enhanced(c: Chunk, defs: seq<Definition>): Chunk {
    match FirstMatch(c.text, defs)
    case None => c
    case Some(j) => EnhanceChunk(c, defs[j])
  }

  /** `_enhance_python_chunks(filepath, content, chunks)`: updates the chunks in place;
      on a syntax error they are left as they are. */
  method EnhancePythonChunks(chunks: array<Chunk>, parsed: Option<seq<Definition>>)
    modifies chunks
    ensures parsed.None? ==> chunks[..] == old(chunks[..])
    ensures parsed.Some? ==> forall i | 0 <= i < chunks.Length :: chunks[i] == Enhanced(old(chunks[i]), parsed.value)
  {
    if parsed.None? {
      return;
    }
    var definitions := parsed.value;
    var i := 0;
    while i < chunks.Length
      invariant 0 <= i <= chunks.Length
      invariant forall k | 0 <= k < i :: chunks[k] == Enhanced(old(chunks[k]), definitions)
      invariant forall k | i <= k < chunks.Length :: chunks[k] == old(chunks[k])
    {
      var chunk := chunks[i];
      var chunkText := chunk.text;
      ghost var before := chunks[..];
      var j := 0;
      while j < |definitions|
        invariant 0 <= j <= |definitions|
        invariant chunks[..] == before
        invariant forall m | 0 <= m < j :: !Mentions(chunkText, definitions[m])
      {
        var defn := definitions[j];
        if Contains(chunkText, "def " + defn.name) || Contains(chunkText, "class " + defn.name) {
          chunks[i] := EnhanceChunk(chunk, defn);
          break;
        }
        j := j + 1;
      }
      assert chunks[i] == Enhanced(chunk, definitions);
      assert forall k | 0 <= k < chunks.Length && k != i :: chunks[k] == before[k];
      i := i + 1;
    }
  }

  /** Enhancement keeps every chunk's file, number, language and count, and adds the
      definition keys only to chunks that mention a definition. */
  lemma EnhancementKeepsChunkIdentity(c: Chunk, defs: seq<Definition>, k: string)
    requires k !in ["definition_type", "definition_name", "has_docstring"]
    ensures Get(Enhanced(c, defs).metadata, k) == Get(c.metadata, k)
    ensures (forall j | 0 <= j < |defs| :: !Mentions(c.text, defs[j])) ==> Enhanced(c, defs) == c
  {
    if FirstMatch(c.text, defs).Some? {
      DefinitionMetadataLookup(defs[FirstMatch(c.text, defs).value]);
    }
  }
}

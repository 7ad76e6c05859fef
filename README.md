# bugtrace in Dafny

bugtrace is a command-line debugging assistant. It scans a project and indexes the code
into a vector store, then builds prompts for a language model from the most relevant
chunks. This project models in Dafny the deterministic core of that pipeline and proves
what it promises:

- **Change detection** (`Fs`): the ignore rule, the recursive project walk and the
  manifest diff that `update_manifest` computes.
- **Index bookkeeping** (`State`): `StateManager` and its persisted `state.json`.
- **Chunking** (`Chunker`): the per-file chunks, the splitter cache and the Python
  definition tagging of `EnhancedChunker`.
- **Vector store** (`VectorStore`): Chroma as a map from chunk id to record, with
  collection naming, id derivation, metadata cleaning, delete-by-file, search and stats.
- **Index coordinator** (`Indexer`): the decision flow of `index_project`, the per-file
  loop of `_build_embeddings`, and the decisions of `ensure_project_indexed`.
- **Configuration** (`Settings`): `DEFAULT_CONFIG` and `validate_config`.
- **Formatters** (`ContextBuilder`, `PromptManager`, `SearchCodebase`, `ReportFormatter`,
  `Files`): context building, prompt assembly, search-result text, the Markdown export
  and the panels' text, and export-path resolution.
- **Stream handlers** (`Streaming`): `StreamingHandler` and `BufferedStreamHandler`, with
  the status reporter's calls kept as a log of events.

Two helper modules carry the Python vocabulary. `Strings` holds text helpers: strip, join,
suffix, integer formatting and sorting. `PyValue` holds Python values, dicts kept in
insertion order, `str()` and truthiness.

Foreign code is an input or a function-typed parameter. This covers SHA-256 and MD5,
`fnmatch`, the LangChain splitter, `ast.parse`, the embedder, Chroma's ranking,
`Path.resolve` and `expanduser`, the clock, and the file system's answers. The
state-changing parts are classes: `ManifestStore`, `StateManager`, `Chunker`,
`VectorStore`, `StreamingHandler` and `BufferedStreamHandler`. Their methods have loops
with invariants where the source loops. Each method is proved against a specification
function, and the properties are stated as lemmas about that function.

## Model

| member | source | states |
|---|---|---|
| Fs.NeverIgnoredOutsideOrWithoutPatterns | bugtrace/utils/fs.py:49-56 | a path outside the project root, or any path when the pattern list is empty, is not ignored |
| Fs.HiddenPatternIsExact | bugtrace/utils/fs.py:58-68 | a pattern starting with '.' matches exactly when some part of the relative path, or the file name, equals it |
| Fs.GlobPatternMatchesAnyPlace | bugtrace/utils/fs.py:69-82 | any other pattern matches exactly when it globs some part, the '/'-joined relative path or the file name |
| Fs.DotGitDoesNotMatchGit | bugtrace/utils/fs.py:58-68 | the pattern `.git` ignores neither a `git` nor a `gitstuff` directory, whatever fnmatch answers |
| Fs.WalkProject | bugtrace/utils/fs.py:86-116 | the walk returns exactly the files of the tree specification: regular files in listing order, ignored entries pruned, unreadable directories contributing nothing |
| Fs.Walk | bugtrace/utils/fs.py:98-113 | one recursive step appends the files under the current directory to what was collected |
| Fs.WalkListsOnlyUnprunedFiles | bugtrace/utils/fs.py:100-113 | no listed file, nor any directory above it inside the root, is ignored |
| Fs.ManifestStore.Load | bugtrace/utils/fs.py:118-122 | an absent manifest.json loads as the empty map, otherwise as the stored map |
| Fs.ManifestStore.Save | bugtrace/utils/fs.py:124-126 | the stored manifest becomes the given map |
| Fs.ManifestStore.UpdateManifest | bugtrace/utils/fs.py:128-161 | a file that cannot be hashed aborts before saving; otherwise the new manifest is saved and the counts are the tally of the scan against the old manifest |
| Fs.ScanFiles | bugtrace/utils/fs.py:135-153 | the loop builds the new manifest and counts new, changed and unchanged files, or stops at the first file that cannot be hashed |
| Fs.CountRemoved | bugtrace/utils/fs.py:139-158 | removed is the number of old manifest keys absent from the scan |
| Fs.NewManifestContents | bugtrace/utils/fs.py:135-153 | the new manifest's keys are exactly the scanned paths, each with its fresh hash; old entries are dropped |
| Fs.CountsCoverScan | bugtrace/utils/fs.py:142-151 | each scanned file is counted exactly once as new, changed or unchanged |
| Fs.CountsCoverDistinctFiles | bugtrace/utils/fs.py:142-151 | with distinct paths, the three counts add up to the number of distinct files and to the manifest size |
| Fs.ManifestDiffExample | bugtrace/utils/fs.py:128-161 | old {a: h1, b: h2} against scan {a: h1, c: h3} gives 1 new, 0 changed, 1 unchanged, 1 removed |
| State.DefaultState | bugtrace/utils/state.py:28-43 | no config hash or timestamps, no indexed files, metadata counts of zero and no last analysis |
| State.LoadState | bugtrace/utils/state.py:19-26 | a readable state file is taken as is; a missing or unparseable one gives the default state |
| State.StateManager.constructor | bugtrace/utils/state.py:14-17 | the manager starts from the loaded state |
| State.StateManager.Save | bugtrace/utils/state.py:45-50 | the whole state is written to disk unchanged |
| State.StateManager.UpdateScanTime | bugtrace/utils/state.py:52-55 | only last_scan changes, and the state is persisted |
| State.StateManager.UpdateIndexTime | bugtrace/utils/state.py:57-60 | only last_index changes, and the state is persisted |
| State.StateManager.UpdateConfigHash | bugtrace/utils/state.py:62-69 | only the hash changes; afterwards config_changed(h) holds exactly for h different from the new hash |
| State.StateManager.GetFilesToIndex | bugtrace/utils/state.py:71-84 | the manifest entries whose path is not indexed or whose indexed hash differs, with the manifest's hashes; state unchanged |
| State.StateManager.MarkFilesIndexed | bugtrace/utils/state.py:86-92 | the given entries are added or overwritten, every other indexed entry is kept, and the state is persisted |
| State.StateManager.UpdateMetadata | bugtrace/utils/state.py:94-99 | the given keys take the given values, every other metadata key keeps its value, and the state is persisted |
| State.MarkingSelectedFilesConverges | bugtrace/utils/state.py:71-92 | after marking the selected files as indexed, selecting again from the same manifest gives nothing |
| State.UpToDateSelectsNothing | bugtrace/utils/state.py:71-84 | with every file indexed at its current hash nothing is selected, and a file whose hash moves is selected again |
| Chunker.KeyFor | bugtrace/rag/chunker.py:63-71 | a language splitter is chosen exactly when the lower-cased suffix is in the language map, otherwise the text splitter |
| Chunker.ChunkMetadataLookup | bugtrace/rag/chunker.py:81-86 | chunk metadata has exactly file, chunk_id, language and total_chunks, in that order, with the given values |
| Chunker.BaseChunks | bugtrace/rag/chunker.py:49-89 | whitespace-only content gives no chunks; otherwise one chunk per splitter piece |
| Chunker.BaseChunksMetadata | bugtrace/rag/chunker.py:74-89 | chunk i holds the i-th piece and records the file, its index, the suffix without dots and the piece count |
| Chunker.NumberChunks | bugtrace/rag/chunker.py:77-89 | the loop numbers the pieces in order, each with its metadata |
| Chunker.NumberedPiecesAreBaseChunks | bugtrace/rag/chunker.py:74-89 | the numbered pieces of the splitter for the file's suffix are exactly the file's chunks |
| Chunker.Chunker.constructor | bugtrace/rag/chunker.py:35-47 | the settings are kept and the splitter cache starts empty |
| Chunker.Chunker.GetCodeSplitter | bugtrace/rag/chunker.py:91-102 | returns the language's splitter, built on first use and reused afterwards |
| Chunker.Chunker.GetTextSplitter | bugtrace/rag/chunker.py:104-126 | returns the text splitter, built on first use and reused afterwards |
| Chunker.Chunker.ChunkFile | bugtrace/rag/chunker.py:49-89 | returns the base chunks; only the splitter for this suffix may be added to the cache, and none for blank content |
| Chunker.Chunker.EnhancedChunkFile | bugtrace/rag/chunker.py:135-146 | keeps the chunk count; enhances each chunk only for the exact suffix '.py' with parsed definitions, otherwise returns the base chunks |
| Chunker.FirstMatch | bugtrace/rag/chunker.py:183-185 | finds the first definition, in walk order, whose `def name` or `class name` occurs in the text, or none |
| Chunker.EnhanceChunk | bugtrace/rag/chunker.py:186-193 | the definition's three keys override the metadata; the docstring line is prefixed only when the docstring is non-empty and absent from the text |
| Chunker.DefinitionMetadataLookup | bugtrace/rag/chunker.py:186-190 | the added metadata is exactly definition_type, definition_name and has_docstring |
| Chunker.EnhancePythonChunks | bugtrace/rag/chunker.py:148-195 | in place: unparseable content leaves the array as it was; otherwise each chunk is enhanced by its first matching definition |
| Chunker.EnhancementKeepsChunkIdentity | bugtrace/rag/chunker.py:179-194 | file, chunk_id, language and total_chunks survive enhancement, and a chunk matching no definition is unchanged |
| VectorStore.CleanName | bugtrace/rag/vector_store.py:49-55 | every character is lower-cased when alphanumeric, otherwise replaced by '_' |
| VectorStore.CleanNameIdempotent | bugtrace/rag/vector_store.py:49-55 | a cleaned name is already clean: cleaning it again changes nothing |
| VectorStore.CollectionName | bugtrace/rag/vector_store.py:41-61 | the cleaned directory name, '_', then the first 8 characters of the MD5 of the project path |
| VectorStore.CleanMetadataLookup | bugtrace/rag/vector_store.py:83-88 | cleaning drops None, lists and dicts, keeps bools and stringifies every other value, key by key |
| VectorStore.ChunkerChunkIdText | bugtrace/rag/vector_store.py:79-81 | a chunker chunk's id text is `"{file}_{chunk_id}"` |
| VectorStore.FirstWithoutIdKeys | bugtrace/rag/vector_store.py:74-81 | finds the first chunk lacking file or chunk_id, where building the id raises KeyError |
| VectorStore.FirstWithoutIdKeysUnique | bugtrace/rag/vector_store.py:74-81 | the chunk found is the first one without the id keys |
| VectorStore.PrepareBatch | bugtrace/rag/vector_store.py:74-88 | the loop builds ids, texts and cleaned metadatas of the same length and order as the chunks |
| VectorStore.BatchIdAt | bugtrace/rag/vector_store.py:79-81 | the i-th id is the MD5 of the i-th chunk's id text |
| VectorStore.BatchMetadataAt | bugtrace/rag/vector_store.py:83-88 | the i-th metadata is the i-th chunk's cleaned metadata |
| VectorStore.Upsert | bugtrace/rag/vector_store.py:90-95 | the store's ids become the old ids plus the batch ids |
| VectorStore.UpsertKeeps | bugtrace/rag/vector_store.py:90-95 | a record whose id is not in the batch is kept |
| VectorStore.UpsertAt | bugtrace/rag/vector_store.py:90-95 | with distinct ids, the i-th id holds the i-th text and metadata |
| VectorStore.AddResultContents | bugtrace/rag/vector_store.py:63-95 | an empty batch, a batch missing an id key and a batch with a repeated id leave the store as it was; otherwise every chunk is stored under its id and every other record is kept |
| VectorStore.AddResultRefusedKeeps | bugtrace/rag/vector_store.py:63-95 | a refused batch leaves the store as it was |
| VectorStore.VectorStore.constructor | bugtrace/rag/vector_store.py:10-39 | the store opens the collection named after the project, holding what it already held |
| VectorStore.VectorStore.AddChunks | bugtrace/rag/vector_store.py:63-95 | the store and the outcome are those of the add specification |
| VectorStore.VectorStore.DeleteFileChunks | bugtrace/rag/vector_store.py:97-117 | removes exactly the records whose file is the resolved path; when the lookup fails the store is unchanged and nothing is raised |
| VectorStore.FileIds | bugtrace/rag/vector_store.py:105-110 | the loop collects exactly the ids whose file is the path |
| VectorStore.DeleteKeepsOtherFiles | bugtrace/rag/vector_store.py:105-115 | after deleting, no record of the path is left, and every record of another file is kept unchanged |
| VectorStore.VectorStore.Search | bugtrace/rag/vector_store.py:119-133 | one result per backend hit, in backend order, with the stored text and metadata and the hit's score |
| VectorStore.VectorStore.GetStats | bugtrace/rag/vector_store.py:136-146 | total_chunks is the number of stored ids, or 0 when retrieval fails |
| Indexer.InOrder | bugtrace/rag/indexer.py:260 | the files the loop visits are exactly the manifest entries selected for indexing |
| Indexer.InOrderPositions | bugtrace/rag/indexer.py:260 | the files are visited in manifest order: each is the manifest entry at an increasing position, and every selected entry is among them |
| Indexer.InOrderListsEachOnce | bugtrace/rag/indexer.py:260 | with distinct manifest keys, each selected file is visited once, so there are as many as selected files |
| Indexer.IndexFile | bugtrace/rag/indexer.py:261-291 | one file: unreadable is skipped; otherwise old chunks are deleted, then the new chunks are embedded and added, and the count is reported only when they are stored |
| Indexer.IndexFiles | bugtrace/rag/indexer.py:258-292 | the loop's store and total are those of the per-file specification folded over the files in order |
| Indexer.ValidatedChunkSettings | bugtrace/rag/indexer.py:48-49 | a configuration that validate_config accepts has integer chunk settings |
| Indexer.BuildEmbeddings | bugtrace/rag/indexer.py:192-297 | no files and an embedder failure stop first, and a missing setting raises, all without changes; otherwise the loop runs and total_chunks is recorded in the metadata |
| Indexer.RunIndex | bugtrace/rag/indexer.py:95-128 | a missing chunk_size or store raises before building; the build fails exactly when the embedder fails or chunk_overlap is missing, and then the state is untouched; success records the files, the hash, the index time and the counts |
| Indexer.IndexProject | bugtrace/rag/indexer.py:22-128 | an invalid config, an empty manifest or an empty delta returns before any change; the files selected are the whole manifest when forced or when the config changed, else the delta; with files selected, the run fails exactly when the embedder fails or chunk_overlap is missing, and indexes exactly when all settings are there and the embedder works |
| Indexer.ConfigChangeForcesFullIndex | bugtrace/rag/indexer.py:57-75 | a changed configuration hash selects the whole manifest, whatever force says |
| Indexer.IndexedStateRecords | bugtrace/rag/indexer.py:112-119 | after success the selected files are indexed with their hashes, other entries are kept, the hash is current, and total_files and total_chunks (10 per file) are written |
| Indexer.SecondRunIsUpToDate | bugtrace/rag/indexer.py:74-84 | right after a successful run, an unforced run with the same manifest and configuration selects nothing |
| Indexer.UnreadableFileIsSkippedButMarked | bugtrace/rag/indexer.py:260-291 | a file that cannot be read leaves the store as it was and adds nothing, yet it is marked indexed |
| Indexer.ProcessFileReplacesChunks | bugtrace/rag/indexer.py:263-285 | once a file is read and its records can be listed, every record left under its path comes from this run, and a file now yielding no chunks has none left; when listing fails, every old record survives, unchanged unless this run reuses its id |
| Indexer.EnsureSkipsExactlyWhenUpToDate | bugtrace/rag/indexer.py:131-189 | a missing or empty manifest triggers a scan; indexing is skipped exactly when the index exists, the hash is unchanged and nothing is selected |
| Settings.MissingIn | bugtrace/config/settings.py:77-80 | the missing sections are exactly the required ones the configuration lacks, in order |
| Settings.FirstRaising | bugtrace/config/settings.py:86-152 | finds the first section, in checking order, whose reading raises: a non-mapping `llm`, `rag` or `analysis`, or a `paths` or `tools` value that is neither a mapping nor a list or string missed by every probe |
| Settings.ValidateConfig | bugtrace/config/settings.py:68-167 | missing sections are reported alone, before any field check; a valid configuration is returned unchanged |
| Settings.ToolErrorsEmpty | bugtrace/config/settings.py:144-149 | no tool error exactly when every tool switch is absent or a bool |
| Settings.IntErrorsEmpty | bugtrace/config/settings.py:122-138 | no error for an integer setting exactly when it is absent or an int in range |
| Settings.LlmErrorsEmpty | bugtrace/config/settings.py:86-102 | no llm error exactly when the provider is known, the model is a non-blank string and the temperature is a number in [0, 2] |
| Settings.PathsErrorsEmpty | bugtrace/config/settings.py:104-117 | no paths error exactly when ignore and logs are absent or lists of strings |
| Settings.RagErrorsEmpty | bugtrace/config/settings.py:119-142 | no rag error exactly when chunk_size is in 1..2000, chunk_overlap in 200..2000, top_k in 1..20 and store is chroma when present |
| Settings.AnalysisErrorsEmpty | bugtrace/config/settings.py:151-162 | no analysis error exactly when max_steps is in 1..20 and reasoning_style is one of the three styles |
| Settings.ValidateConfigAcceptsExactly | bugtrace/config/settings.py:68-167 | validation succeeds exactly when every section is present and readable without raising and every field is acceptable |
| Settings.UnprobedSectionsAccepted | bugtrace/config/settings.py:105-117 | a string `paths` and a list `tools` holding no probed key pass validation alongside acceptable mapping sections |
| Settings.ProbedListSectionRaises | bugtrace/config/settings.py:144-148 | a `tools` list holding "code_search" raises when that entry is indexed, whatever the other sections hold |
| Settings.ValidFromSections | bugtrace/config/settings.py:77-162 | five present sections, each with acceptable fields, make a valid configuration |
| Settings.DefaultConfigValid | bugtrace/config/settings.py:5-32 | the default configuration passes validation and is returned unchanged |
| ContextBuilder.CopyFieldsLookup | bugtrace/agent/context_builder.py:132-134 | a copied key has its source value when listed, and is absent otherwise |
| ContextBuilder.StructureSnippetFields | bugtrace/agent/context_builder.py:97-144 | file ('unknown' when missing) and code; only the eight optional fields, when present; lines exactly when both bounds exist, as "start-end"; function exactly when function_name exists |
| ContextBuilder.LanguagesMembers | bugtrace/agent/context_builder.py:153-157 | a language is collected exactly when some snippet has it as a non-empty file_type |
| ContextBuilder.BuildContextSummary | bugtrace/agent/context_builder.py:30-95 | keeps the first max_chunks results, in order, as snippets; counts the snippets and the distinct files; lists the languages sorted and without duplicates |
| ContextBuilder.SnippetNotes | bugtrace/agent/context_builder.py:187-199 | a Notes line appears exactly when error handling or logging is False or has_todo is truthy, listing those flags in that order |
| ContextBuilder.FormatSnippetFrame | bugtrace/agent/context_builder.py:165-208 | a snippet's text opens with the separator and its file, and closes with the stripped code fenced under its file_type |
| ContextBuilder.FormatContextShape | bugtrace/agent/context_builder.py:210-231 | the summary line, then every snippet in order, each followed by a blank line |
| PromptManager.ModeOf | bugtrace/agent/prompt_manager.py:108 | only the four known modes have their own prompts; any other text is kept as an unknown mode |
| PromptManager.SystemPromptFallback | bugtrace/agent/prompt_manager.py:108 | an unknown mode gets the debug system prompt |
| PromptManager.SnippetHeaderLines | bugtrace/agent/prompt_manager.py:164-193 | separator and file, then a Lines line only with a range, a Function line only with a function, and a Notes line only with a warning |
| PromptManager.FormatSnippetFrame | bugtrace/agent/prompt_manager.py:164-202 | a snippet opens with the separator and its file, and closes with the stripped code fenced under its file_type |
| PromptManager.HeaderAndInstruction | bugtrace/agent/prompt_manager.py:128-160 | a known mode has one header line and one instruction line; an unknown mode has neither |
| PromptManager.UserPromptShape | bugtrace/agent/prompt_manager.py:118-162 | header, the context line with its counts, the Relevant Code line, each snippet followed by a blank line, then the instruction |
| PromptManager.MessagesShape | bugtrace/agent/prompt_manager.py:90-116 | two messages, system then user, the user message laid out as the user prompt |
| PromptManager.DebugMessagesByMode | bugtrace/agent/prompt_manager.py:90-116 | for each known mode, its system prompt, header and instruction; an unknown mode gets the debug prompt and a bare body |
| PromptManager.SimpleMessagesShape | bugtrace/agent/prompt_manager.py:204-226 | the debug prompt, then the query, a blank line and the fenced code, from which query and code can be read back |
| PromptManager.FollowupReplaysExchange | bugtrace/agent/prompt_manager.py:228-249 | four messages: the debug system prompt, then user, assistant and user carrying the inputs in order |
| SearchCodebase.JoinNumbered | bugtrace/tools/search_codebase.py:77-99 | joining the count line and the numbered blocks with newlines is the count line followed by each block |
| SearchCodebase.SearchTextShape | bugtrace/tools/search_codebase.py:73-99 | no results gives the not-found message with the query; otherwise "Found N relevant code chunks:" and a newline, then one block per result in order |
| SearchCodebase.ResultLinesContent | bugtrace/tools/search_codebase.py:80-97 | the block number, the file ('unknown' when missing), '?' for a missing bound, and a Function line exactly when function_name is truthy and not 'unknown' |
| SearchCodebase.ResultTextFrame | bugtrace/tools/search_codebase.py:87-97 | a block opens with its number and file, and closes with the stripped code in a fence |
| Streaming.StreamingHandler.constructor | bugtrace/report/streaming.py:29-32 | an empty buffer, not streaming, and nothing shown |
| Streaming.StreamingHandler.Start | bugtrace/report/streaming.py:34-38 | the buffer is cleared, streaming is on and the reporter starts a stream |
| Streaming.StreamingHandler.Write | bugtrace/report/streaming.py:40-44 | a token is kept and shown only while streaming; otherwise it is dropped |
| Streaming.StreamingHandler.Finish | bugtrace/report/streaming.py:46-52 | streaming turns off, the stream ends only if it was on, and the result is the tokens shown since the last start |
| Streaming.StreamingHandler.GetResponse | bugtrace/report/streaming.py:54-56 | the tokens shown since the last start, with nothing changed |
| Streaming.BufferedStreamHandler.constructor | bugtrace/report/streaming.py:66-70 | an empty buffer, no chunks written, and nothing shown |
| Streaming.BufferedStreamHandler.Start | bugtrace/report/streaming.py:72-76 | the buffer and the chunk count are cleared and the reporter starts a stream |
| Streaming.BufferedStreamHandler.Write | bugtrace/report/streaming.py:78-87 | the buffer flushes when it reaches chunk_size, so it stays below chunk_size; shown text plus buffer is everything written |
| Streaming.BufferedStreamHandler.Finish | bugtrace/report/streaming.py:89-97 | the tail is emitted and the stream ends, so everything written has been shown in order; the result is only the unflushed tail |
| Streaming.BufferedStreamHandler.GetFullResponse | bugtrace/report/streaming.py:99-101 | the unflushed tail, which with what was shown makes up everything written |
| Streaming.BufferedStreamHandler.FinishComplete | bugtrace/report/streaming.py:89-101 | finishing as Finish does, but returning everything written since the start |
| Streaming.FinishReturnsOnlyTail | bugtrace/report/streaming.py:89-101 | with chunk_size 2, writing "a" then "b" makes finish return "" although "ab" was written |
| ReportFormatter.TitleCaseLetters | bugtrace/report/report_formatter.py:256 | the first letter of each word is upper-cased, other letters are lower-cased and other characters are kept |
| ReportFormatter.TitleCaseIdempotent | bugtrace/report/report_formatter.py:256 | title-casing twice is title-casing once |
| ReportFormatter.ExportLayout | bugtrace/report/report_formatter.py:234-281 | title, blank line, the query or 'Unknown', blank line; then the info section, the analysis section with the response or 'No response', and the files section |
| ReportFormatter.InfoSectionLayout | bugtrace/report/report_formatter.py:251-257 | the info section appears only for non-empty metadata, with one bullet per key in dict order |
| ReportFormatter.FilesSectionLayout | bugtrace/report/report_formatter.py:266-276 | the files section appears only with snippets, listing each distinct file once in sorted order |
| ReportFormatter.BulletSection | bugtrace/report/report_formatter.py:268-276 | heading, blank line, one bullet per file, blank line |
| ReportFormatter.ListedFiles | bugtrace/report/report_formatter.py:270-274 | the listed files are sorted without duplicates, and a file is listed exactly when some snippet has it |
| ReportFormatter.LocationKeysSpec | bugtrace/report/report_formatter.py:200-224 | the listed (file, lines) pairs are distinct and are exactly those of the snippets that have a file |
| ReportFormatter.FileLocationsShowSnippets | bugtrace/report/report_formatter.py:200-224 | the panel is absent without snippets; otherwise it has a line for the location of every snippet with a file, and every line is such a location, with ":lines" only for a non-empty range |
| ReportFormatter.GroupLookup | bugtrace/report/report_formatter.py:176-184 | a file's group holds the functions of its snippets, in snippet order; a file with no snippet has no group |
| ReportFormatter.PanelLinesAgree | bugtrace/report/report_formatter.py:187-191 | the panel lines depend only on the functions of the files listed |
| ReportFormatter.FilesAnalyzedSpec | bugtrace/report/report_formatter.py:164-198 | the panel lists the distinct snippet files sorted, each followed by its functions in snippet order |
| Files.ReportNameShape | bugtrace/utils/files.py:15 | the generated name starts with "bugtrace-report-", contains no '/', and has the suffix ".md" |
| Files.SuffixOfMd | bugtrace/utils/files.py:26 | a non-empty stem followed by ".md" has the suffix ".md" |
| Files.WithSuffixMd | bugtrace/utils/files.py:26-27 | with_suffix keeps the directory and the stem and replaces the suffix with ".md" |
| Files.TargetIsMarkdown | bugtrace/utils/files.py:14-27 | every branch settles on a ".md" name, except a non-directory path with an empty name, which raises |
| Files.ResolveBranches | bugtrace/utils/files.py:5-32 | None gives the generated name in the current directory, a directory gets it inside, and a ".md" path is kept and resolved |
| Files.ResolvedIsMarkdown | bugtrace/utils/files.py:14-32 | when resolving keeps names, every returned path ends in ".md" |

## Left out

- The language-model layer, the agents, the embedder and the CLI are not modelled. They talk to the network or drive the terminal.
- Floating-point work is not modelled: embeddings, similarity scores (kept as opaque reals) and a float's `repr` (kept as given text).
- Printing through rich, the reporter's progress messages, writing the report file and the `mkdir` calls are effects and are not modelled. The formatters return the text instead.
- `hash_config` (SHA-256 over the JSON text) is the parameter `hashConfig`. SHA-256, MD5, `fnmatch`, the LangChain splitter, `ast.parse`/`ast.walk`, `Path.resolve`, `expanduser` and the clock are likewise parameters or inputs.
- The scan that `index_project` runs first (the analyze glue) is not modelled; the manifest is an input.
- `lower`, `isalnum` and `title` follow ASCII rules here, not Python's Unicode tables. `str.strip` uses Python's whitespace set.
- A dict is an association list with one entry per key. A `set` iterated by `sorted` is a sorted sequence.
- ContextBuilder.StructureSnippet: requires `file` to be text. A bool there makes `Path(...)` raise TypeError, and that path is not modelled.
- ContextBuilder.BuildContextSummary: requires every kept result to be renderable. A bool `file_type` next to text ones makes the language sort raise TypeError; the requires excludes any bool `file_type`, so that path is not modelled.
- Settings.ValidateConfig: a section whose reading raises TypeError or AttributeError gives the `Malformed` outcome, naming the first such section, instead of an exception. Any non-mapping `llm`, `rag` or `analysis` raises. A `paths` or `tools` list or string raises only when a probed key is in it; otherwise it passes as an empty section.
- The validation message for a bad chunk_overlap keeps the source's wording, "rag.chunk_size must be between 200 and 2000".
- ReportFormatter.LocationKeysSpec: states distinctness and membership but not first-seen order. The order is fixed by the definition of `LocationKeys`.
- ReportFormatter.ExportLayout: a missing `context` or `code_snippets` key is treated as no snippets; a missing query or response is `None`.
- Files.Stamp: `%Y` is padded to four digits. Years below 1000 follow the C library's `strftime` in Python, which is not modelled.
- Files.ResolvedIsMarkdown: assumes that resolving a path keeps its name. Symlinks that rename the file are outside the model.
- Indexer.ProcessFileReplacesChunks: assumes the path is already resolved. The source deletes by the resolved path but stores `str(filepath)` unresolved, so a relative path's old chunks are not found. The model keeps that mismatch through `resolve`.
- Indexer.BuildEmbeddings: the vector store is given. How the source picks it is not modelled: it walks up from the first file to a directory holding `.bugtrace` and opens the collection "default" under a directory named after that root. The RuntimeError raised when Chroma cannot be opened is not modelled either.
- A splitter that raises is not modelled. LangChain refuses a chunk_overlap larger than chunk_size, which validation allows (chunk_size 100 with the default overlap 200); the source then skips the file after deleting its old chunks. `split` returning no pieces gives the same store and count.
- Fs.WalkProject: directories form a finite tree. A symlink cycle, on which `walk_project` recurses without end, is not modelled.
- Fs.WalkProject: a directory is either readable or not as a whole. A PermissionError raised by `is_dir` partway through a listing, which drops the rest of that listing, is not modelled.
- Fs.ManifestStore.Load: the stored manifest is a well-formed map. Corrupt JSON, on which `load_manifest` raises JSONDecodeError, is not modelled.
- Indexer.IndexProject: the source creates its StateManager before the scan, which updates last_scan through another manager. The later saves write the stale last_scan back. The model does not run the scan, so this is not captured.
- Streaming: the global status reporter is a per-handler log of events. Output from other users of the reporter is not modelled.
- PromptManager: the four system prompts are kept as verbatim constants; their texts are not compared with each other.
- The search call and the LangChain tool wrapper in search_codebase are not modelled; the results are an input.

## Findings

| source | as written | input that shows it | evidently intended | confidence | as-written member | corrected member |
|---|---|---|---|---|---|---|
| bugtrace/report/streaming.py:89-101 | `BufferedStreamHandler.finish` emits the unflushed tail, then returns `get_full_response()`, which joins only the buffer; every chunk flushed earlier is missing from the result | chunk_size 2, start, write "a", write "b", finish: the returned text is "" | finish returns the complete response, "ab", as the docstring of `get_full_response` says | not executed | Streaming.FinishReturnsOnlyTail | Streaming.BufferedStreamHandler.FinishComplete |

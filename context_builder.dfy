/** Search results turned into the structured context the prompts are built from
    (bugtrace/agent/context_builder.py): the first `max_chunks` results become snippets,
    a summary counts them, and two formatters render snippets and the whole context as
    prompt text. The reporter's progress messages are output only and are not modelled.

    A search result's metadata is what the store hands back: text or bool values. The
    chunker never writes `line_start`, `line_end`, `function_name`, `file_type` or the
    `has_*` flags, so every one of them is treated as optional. `Path(file).name` is
    `Fs.Name(parse(file))` for the path parser `parse`. */
module ContextBuilder {
  import opened Strings
  import opened PyValue
  import Fs
  import VectorStore

  /** The metadata keys `_structure_snippet` copies when present, in this order. */
  const OptionalFields: seq<string> :=
    ["line_start", "line_end", "function_name", "chunk_id", "file_type",
     "has_error_handling", "has_logging", "has_todo"]

  /** The snippet dict: `lines` and `function` are keys that may be absent. */
  datatype Snippet = Snippet(file: string, fileName: string, code: string, metadata: Meta,
                             lines: Option<string>, functionName: Option<Scalar>)

  datatype Summary = Summary(totalFiles: nat, totalChunks: nat, languages: seq<string>)

  datatype Context = Context(query: string, snippets: seq<Snippet>, summary: Summary)

  /** `md[key]` is text when present; `Path(...)`, the language sort and the code fence
      raise TypeError on a bool there. */
  predicate TextValued(md: Meta, key: string) {
    var v := Get(md, key);
    v.None? || v.value.SStr?
  }

  /** What a result must hold for `_structure_snippet` and the formatters not to raise. */
  predicate Renderable(md: Meta) {
    TextValued(md, "file") && TextValued(md, "file_type")
  }

  /** `md.get(key, default)` for a text value. */
  function TextOr(md: Meta, key: string, default: string): string {
    var v := Get(md, key);
    if v.Some? && v.value.SStr? then v.value.s else default
  }

  // ----- `_structure_snippet` -----

  /** The loop over `fields`: each one present in `md` is written into the snippet's
      metadata dict, in order. */
  function CopyFields(md: Meta, fields: seq<string>): Meta {
    if fields == [] then []
    else
      var prev := CopyFields(md, fields[..|fields| - 1]);
      var f := fields[|fields| - 1];
      var v := Get(md, f);
      if v.Some? then Put(prev, f, v.value) else prev
  }

  /** The copied metadata holds a key exactly when it is one of `fields` present in
      `md`, with `md`'s value. */
  lemma {:induction false} CopyFieldsLookup(md: Meta, fields: seq<string>, k: string)
    ensures Get(CopyFields(md, fields), k) == if k in fields then Get(md, k) else None
    decreases |fields|
  {
    if fields != [] {
      var n := |fields| - 1;
      var prev := CopyFields(md, fields[..n]);
      CopyFieldsLookup(md, fields[..n], k);
      assert k in fields <==> k in fields[..n] || k == fields[n] by {
        assert fields == fields[..n] + [fields[n]];
      }
      if Get(md, fields[n]).Some? {
        GetPut(prev, fields[n], Get(md, fields[n]).value, k);
      }
    }
  }

  /** `_structure_snippet(result)` */
  function StructureSnippet(r: VectorStore.SearchResult, parse: string -> Fs.Path): Snippet
    requires TextValued(r.metadata, "file")
  {
    var md := r.metadata;
    var file := TextOr(md, "file", "unknown");
    var start, end := Get(md, "line_start"), Get(md, "line_end");
    Snippet(file, Fs.Name(parse(file)), r.text, CopyFields(md, OptionalFields),
            if start.Some? && end.Some? then Some(ScalarStr(start.value) + "-" + ScalarStr(end.value)) else None,
            Get(md, "function_name"))
  }

  /** A snippet takes the result's file ('unknown' when missing) and text; its metadata
      holds exactly the optional fields the result has, with their values; `lines` is
      present exactly when both line bounds are, as "start-end"; `function` exactly when
      `function_name` is. */
  lemma StructureSnippetFields(r: VectorStore.SearchResult, parse: string -> Fs.Path, k: string)
    requires TextValued(r.metadata, "file")
    ensures var s := StructureSnippet(r, parse);
            && (s.file == if Has(r.metadata, "file") then Get(r.metadata, "file").value.s else "unknown")
            && s.code == r.text
            && Get(s.metadata, k) == (if k in OptionalFields then Get(r.metadata, k) else None)
            && (s.lines.Some? <==> Has(r.metadata, "line_start") && Has(r.metadata, "line_end"))
            && (s.lines.Some? ==> s.lines.value == ScalarStr(Get(r.metadata, "line_start").value) + "-"
                                                   + ScalarStr(Get(r.metadata, "line_end").value))
            && (s.functionName.Some? <==> Has(r.metadata, "function_name"))
            && (s.functionName.Some? ==> s.functionName == Get(r.metadata, "function_name"))
  {
    CopyFieldsLookup(r.metadata, OptionalFields, k);
  }

  // ----- `build_context` and `_build_summary` -----

  /** The truthy `file_type` values of the snippets, in snippet order. */
  function Languages(snippets: seq<Snippet>): seq<string> {
    if snippets == [] then []
    else
      var prev := Languages(snippets[..|snippets| - 1]);
      var t := Get(snippets[|snippets| - 1].metadata, "file_type");
      if t.Some? && ScalarTruthy(t.value) then prev + [ScalarStr(t.value)] else prev
  }

  /** The files the snippets come from. */
  function FilesSeen(snippets: seq<Snippet>): set<string> {
    set i | 0 <= i < |snippets| :: snippets[i].file
  }

  /** `_build_summary(snippets, files)` */
  function BuildSummary(snippets: seq<Snippet>, files: set<string>): Summary {
    Summary(|files|, |snippets|, SortedSet(Languages(snippets)))
  }

  /** Every result `build_context` keeps can be structured and formatted. */
  predicate AllRenderable(results: seq<VectorStore.SearchResult>) {
    forall i | 0 <= i < |results| :: Renderable(results[i].metadata)
  }

  /** `build_context(query, search_results, max_chunks)` */
  function BuildContext(query: string, results: seq<VectorStore.SearchResult>, maxChunks: int,
                        parse: string -> Fs.Path): Context
    requires AllRenderable(Take(results, maxChunks))
  {
    var limited := Take(results, maxChunks);
    var snippets := seq(|limited|, i requires 0 <= i < |limited| => StructureSnippet(limited[i], parse));
    Context(query, snippets, BuildSummary(snippets, FilesSeen(snippets)))
  }

  /** `Languages` collects a snippet's `file_type` exactly when it is truthy. */
  lemma {:induction false} LanguagesMembers(snippets: seq<Snippet>, l: string)
    requires forall i | 0 <= i < |snippets| :: TextValued(snippets[i].metadata, "file_type")
    ensures l in Languages(snippets) <==>
              l != "" && exists i | 0 <= i < |snippets| :: Get(snippets[i].metadata, "file_type") == Some(SStr(l))
    decreases |snippets|
  {
    if snippets != [] {
      var n := |snippets| - 1;
      var prefix := snippets[..n];
      LanguagesMembers(prefix, l);
      var t := Get(snippets[n].metadata, "file_type");
      if l in Languages(snippets) && !(l in Languages(prefix)) {
        assert t == Some(SStr(l));
      }
      if exists i | 0 <= i < |snippets| :: Get(snippets[i].metadata, "file_type") == Some(SStr(l)) {
        var i :| 0 <= i < |snippets| && Get(snippets[i].metadata, "file_type") == Some(SStr(l));
        if i < n { assert Get(prefix[i].metadata, "file_type") == Some(SStr(l)); }
      }
      forall i | 0 <= i < |prefix| ensures snippets[i] == prefix[i] { }
    }
  }

  /** The context keeps the first `max_chunks` results (Python's slice rule), in order,
      each structured as a snippet; the summary counts the snippets and their distinct
      files, and lists the truthy `file_type` values sorted and without duplicates. */
  lemma BuildContextSummary(query: string, results: seq<VectorStore.SearchResult>, maxChunks: int,
                            parse: string -> Fs.Path, l: string)
    requires AllRenderable(Take(results, maxChunks))
    ensures var c := BuildContext(query, results, maxChunks, parse);
            && c.query == query
            && |c.snippets| == |Take(results, maxChunks)| <= |results|
            && (forall i | 0 <= i < |c.snippets| :: c.snippets[i] == StructureSnippet(results[i], parse))
            && c.summary.totalChunks == |c.snippets|
            && c.summary.totalFiles == |set i | 0 <= i < |c.snippets| :: c.snippets[i].file|
            && StrictlySorted(c.summary.languages)
            && (l in c.summary.languages <==>
                  l != "" && exists i | 0 <= i < |c.snippets| :: Get(c.snippets[i].metadata, "file_type") == Some(SStr(l)))
  {
    var c := BuildContext(query, results, maxChunks, parse);
    var limited := Take(results, maxChunks);
    forall i | 0 <= i < |c.snippets| ensures TextValued(c.snippets[i].metadata, "file_type") {
      StructureSnippetFields(limited[i], parse, "file_type");
    }
    LanguagesMembers(c.snippets, l);
    assert l in c.summary.languages <==> l in Elems(Languages(c.snippets));
  }

  // ----- `format_snippet_for_prompt` and `format_context_for_prompt` -----

  /** `metadata.get("has_error_handling") is False` */
  predicate NoErrorHandling(md: Meta) {
    Get(md, "has_error_handling") == Some(SBool(false))
  }

  /** `metadata.get("has_logging") is False` */
  predicate NoLogging(md: Meta) {
    Get(md, "has_logging") == Some(SBool(false))
  }

  /** `metadata.get("has_todo")` is truthy. */
  predicate HasTodo(md: Meta) {
    var t := Get(md, "has_todo");
    t.Some? && ScalarTruthy(t.value)
  }

  /** The warnings of the Notes line, in this order. */
  function Flags(md: Meta): seq<string> {
    (if NoErrorHandling(md) then ["No error handling"] else [])
    + (if NoLogging(md) then ["No logging"] else [])
    + (if HasTodo(md) then ["Has TODO"] else [])
  }

  /** The header lines of a snippet: its file, then its line range and function when
      present, then the Notes line when there is a warning. */
  function SnippetHeader(s: Snippet): (lines: seq<string>)
    ensures |lines| >= 2
  {
    var flags := Flags(s.metadata);
    ["---", "File: " + s.file]
    + (if s.lines.Some? then ["Lines: " + s.lines.value] else [])
    + (if s.functionName.Some? then ["Function: " + ScalarStr(s.functionName.value)] else [])
    + (if flags != [] then ["Notes: " + Join(flags, ", ")] else [])
  }

  /** `format_snippet_for_prompt(snippet)` */
  function FormatSnippet(s: Snippet): string {
    Join(SnippetHeader(s) + ["", "Code:", "```" + TextOr(s.metadata, "file_type", ""), Strip(s.code), "```"], "\n")
  }

  /** A Notes line is there exactly when the snippet lacks error handling, lacks logging
      or has a TODO; it lists those warnings in that order. */
  lemma SnippetNotes(s: Snippet)
    ensures var h := SnippetHeader(s);
            var md := s.metadata;
            && ((exists i | 2 <= i < |h| :: StartsWith(h[i], "Notes: ")) <==> NoErrorHandling(md) || NoLogging(md) || HasTodo(md))
            && (NoErrorHandling(md) || NoLogging(md) || HasTodo(md) ==>
                  h[|h| - 1] == "Notes: " + Join((if NoErrorHandling(md) then ["No error handling"] else [])
                                                 + (if NoLogging(md) then ["No logging"] else [])
                                                 + (if HasTodo(md) then ["Has TODO"] else []), ", "))
  {
    var h := SnippetHeader(s);
    var flags := Flags(s.metadata);
    var rest := (if s.lines.Some? then ["Lines: " + s.lines.value] else [])
                + (if s.functionName.Some? then ["Function: " + ScalarStr(s.functionName.value)] else []);
    if flags != [] {
      assert StartsWith(h[|h| - 1], "Notes: ");
    } else {
      assert h == ["---", "File: " + s.file] + rest;
      forall i | 2 <= i < |h| ensures !StartsWith(h[i], "Notes: ") {
        assert h[i] == rest[i - 2];
        assert h[i][0] == 'L' || h[i][0] == 'F';
      }
    }
  }

  /** A formatted snippet opens with the separator and its file and closes with the
      stripped code fenced under the `file_type` tag. */
  lemma FormatSnippetFrame(s: Snippet)
    ensures StartsWith(FormatSnippet(s), "---\nFile: " + s.file)
    ensures EndsWith(FormatSnippet(s), "\n\nCode:\n```" + TextOr(s.metadata, "file_type", "") + "\n" + Strip(s.code) + "\n```")
  {
    var h := SnippetHeader(s);
    var ft := TextOr(s.metadata, "file_type", "");
    var block := ["", "Code:", "```" + ft, Strip(s.code), "```"];
    assert FormatSnippet(s) == Join(h + block, "\n");
    SnippetHeaderStart(s);
    JoinFrame(h, block, "\n", "---\nFile: " + s.file);
    CodeBlockText(ft, Strip(s.code));
  }

  lemma SnippetHeaderStart(s: Snippet)
    ensures StartsWith(Join(SnippetHeader(s), "\n"), "---\nFile: " + s.file)
  {
    var h := SnippetHeader(s);
    assert h[0] == "---" && h[1] == "File: " + s.file;
    JoinStartsWithTwo(h, "\n");
    assert "---" + "\n" + ("File: " + s.file) == "---\nFile: " + s.file;
  }

  /** The fenced code block a formatted snippet ends with. */
  lemma CodeBlockText(fileType: string, code: string)
    ensures "\n" + Join(["", "Code:", "```" + fileType, code, "```"], "\n") == "\n\nCode:\n```" + fileType + "\n" + code + "\n```"
  {
    var fence := "```" + fileType;
    JoinFive("", "Code:", fence, code, "```", "\n");
    assert "\n" + ("" + "\n" + ("Code:" + "\n" + (fence + "\n" + (code + "\n" + "```"))))
        == "\n\nCode:\n```" + fileType + "\n" + code + "\n```";
  }

  /** The summary line of `format_context_for_prompt`. */
  function ContextHeader(c: Context): string {
    "Analyzing " + IntToString(c.summary.totalChunks) + " code snippets from "
    + IntToString(c.summary.totalFiles) + " files"
  }

  function FormattedSnippets(snippets: seq<Snippet>): (texts: seq<string>)
    ensures |texts| == |snippets|
    ensures forall i | 0 <= i < |snippets| :: texts[i] == FormatSnippet(snippets[i])
  {
    seq(|snippets|, i requires 0 <= i < |snippets| => FormatSnippet(snippets[i]))
  }

  /** `format_context_for_prompt(context)` */
  function FormatContext(c: Context): string {
    Join([ContextHeader(c), ""] + Blocks(FormattedSnippets(c.snippets)), "\n")
  }

  /** The prompt text is the summary line, a line break, then every snippet in order,
      each between line breaks (so each is followed by a blank line). */
  lemma FormatContextShape(c: Context)
    ensures FormatContext(c) == ContextHeader(c) + "\n" + Wrapped(FormattedSnippets(c.snippets))
  {
    JoinTitledBlocks(ContextHeader(c), FormattedSnippets(c.snippets));
  }
}

/** The text the `search_codebase` tool hands back to the agent
    (bugtrace/tools/search_codebase.py): the results of a store search rendered as one
    numbered block after another. The search itself, and the LangChain tool wrapper
    around the function, are not part of this model: the results are an input. */
module SearchCodebase {
  import opened Strings
  import opened PyValue
  import VectorStore

  const NoResultsPrefix := "No relevant code found for query: '"

  /** `metadata.get(key, default)` as an f-string renders it. */
  function FieldOr(md: Meta, key: string, default: string): string {
    var v := Get(md, key);
    if v.Some? then ScalarStr(v.value) else default
  }

  /** `function_name and function_name != 'unknown'`, where a missing name is 'unknown'. */
  predicate ShowsFunction(md: Meta) {
    var f := Get(md, "function_name");
    f.Some? && ScalarTruthy(f.value) && f.value != SStr("unknown")
  }

  /** The result number, file, line range and (maybe) function lines of one result. */
  function ResultHead(idx: int, md: Meta): seq<string> {
    ["\n--- Result " + IntToString(idx) + " ---",
     "File: " + FieldOr(md, "file", "unknown"),
     "Lines: " + FieldOr(md, "line_start", "?") + "-" + FieldOr(md, "line_end", "?")]
    + (if ShowsFunction(md) then ["Function: " + ScalarStr(Get(md, "function_name").value)] else [])
  }

  /** The fenced, stripped code of one result. */
  function CodeLines(text: string): seq<string> {
    ["\nCode:", "```", Strip(text), "```"]
  }

  /** The lines one turn of the loop appends for result number `idx`. */
  function ResultLines(idx: int, r: VectorStore.SearchResult): seq<string> {
    ResultHead(idx, r.metadata) + CodeLines(r.text)
  }

  /** The lines a loop over `enumerate(xs, 1)` appends, `f(idx, x)` for each. */
  function NumberedLines<T>(xs: seq<T>, f: (int, T) -> seq<string>): seq<string> {
    if xs == [] then []
    else
      var n := |xs| - 1;
      NumberedLines(xs[..n], f) + f(n + 1, xs[n])
  }

  /** Each turn's lines joined, after a line break. */
  function NumberedTexts<T>(xs: seq<T>, f: (int, T) -> seq<string>): (texts: seq<string>)
    ensures |texts| == |xs|
    ensures forall i | 0 <= i < |xs| :: texts[i] == "\n" + Join(f(i + 1, xs[i]), "\n")
  {
    seq(|xs|, i requires 0 <= i < |xs| => "\n" + Join(f(i + 1, xs[i]), "\n"))
  }

  /** A head line joined with the lines of every turn is the head followed by each
      turn's text after a line break. */
  lemma {:induction false} JoinNumbered<T>(head: string, xs: seq<T>, f: (int, T) -> seq<string>)
    requires forall i, x :: f(i, x) != []
    ensures Join([head] + NumberedLines(xs, f), "\n") == head + Concat(NumberedTexts(xs, f))
    decreases |xs|
  {
    if xs == [] {
      assert [head] + NumberedLines(xs, f) == [head];
    } else {
      var n := |xs| - 1;
      var prefix := xs[..n];
      var lines := f(n + 1, xs[n]);
      var before := [head] + NumberedLines(prefix, f);
      var t := "\n" + Join(lines, "\n");
      var texts := NumberedTexts(prefix, f);
      assert [head] + NumberedLines(xs, f) == before + lines;
      assert NumberedTexts(xs, f) == texts + [t] by {
        forall i | 0 <= i < n ensures NumberedTexts(xs, f)[i] == texts[i] {
          assert prefix[i] == xs[i];
        }
      }
      calc {
        Join(before + lines, "\n");
        { JoinAppend(before, lines, "\n"); }
        Join(before, "\n") + "\n" + Join(lines, "\n");
        { JoinNumbered(head, prefix, f); }
        head + Concat(texts) + "\n" + Join(lines, "\n");
        { Regroup3(head, Concat(texts), "\n", Join(lines, "\n")); }
        head + (Concat(texts) + t);
        { ConcatAppend(texts, [t]); assert Concat([t]) == t; }
        head + Concat(texts + [t]);
      }
    }
  }

  lemma Regroup3(a: string, b: string, c: string, d: string)
    ensures a + b + c + d == a + (b + (c + d))
  {
  }

  function CountLine(n: int): string {
    "Found " + IntToString(n) + " relevant code chunks:\n"
  }

  /** `search_codebase_impl(query)` given the results of `vector_store.search`. */
  function SearchText(query: string, results: seq<VectorStore.SearchResult>): string {
    if results == [] then NoResultsPrefix + query + "'"
    else Join([CountLine(|results|)] + NumberedLines(results, ResultLines), "\n")
  }

  /** The text of result number `idx`. */
  function ResultText(idx: int, r: VectorStore.SearchResult): string {
    Join(ResultLines(idx, r), "\n")
  }

  /** No results give the not-found message; otherwise the count line comes first and
      then one numbered block per result, in result order, counting from 1. */
  lemma SearchTextShape(query: string, results: seq<VectorStore.SearchResult>)
    ensures results == [] ==> SearchText(query, results) == "No relevant code found for query: '" + query + "'"
    ensures results != [] ==>
              SearchText(query, results)
              == "Found " + IntToString(|results|) + " relevant code chunks:\n" + Concat(NumberedTexts(results, ResultLines))
  {
    if results != [] {
      forall i, x ensures ResultLines(i, x) != [] { }
      JoinNumbered(CountLine(|results|), results, ResultLines);
    }
  }

  /** One result's lines: its file ('unknown' when missing), its line range with '?'
      for a missing bound, and a Function line exactly when `function_name` is present,
      truthy and not 'unknown'. */
  lemma ResultLinesContent(idx: int, r: VectorStore.SearchResult)
    ensures var lines := ResultLines(idx, r);
            var md := r.metadata;
            var f := Get(md, "function_name");
            && lines[0] == "\n--- Result " + IntToString(idx) + " ---"
            && lines[1] == "File: " + (if Has(md, "file") then ScalarStr(Get(md, "file").value) else "unknown")
            && lines[2] == "Lines: " + (if Has(md, "line_start") then ScalarStr(Get(md, "line_start").value) else "?")
                           + "-" + (if Has(md, "line_end") then ScalarStr(Get(md, "line_end").value) else "?")
            && (|lines| == 8 <==> f.Some? && f.value != SStr("") && f.value != SBool(false) && f.value != SStr("unknown"))
            && (|lines| == 7 || |lines| == 8)
            && (|lines| == 8 ==> lines[3] == "Function: " + ScalarStr(f.value))
  {
    var md := r.metadata;
    var head := ResultHead(idx, md);
    var lines := ResultLines(idx, r);
    ResultHeadContent(idx, md);
    ShowsFunctionExactly(md);
    assert |CodeLines(r.text)| == 4;
    assert lines == head + CodeLines(r.text);
    assert lines[..|head|] == head;
  }

  lemma ResultHeadContent(idx: int, md: Meta)
    ensures var head := ResultHead(idx, md);
            && |head| == (if ShowsFunction(md) then 4 else 3)
            && head[0] == "\n--- Result " + IntToString(idx) + " ---"
            && head[1] == "File: " + (if Has(md, "file") then ScalarStr(Get(md, "file").value) else "unknown")
            && head[2] == "Lines: " + (if Has(md, "line_start") then ScalarStr(Get(md, "line_start").value) else "?")
                          + "-" + (if Has(md, "line_end") then ScalarStr(Get(md, "line_end").value) else "?")
            && (ShowsFunction(md) ==> head[3] == "Function: " + ScalarStr(Get(md, "function_name").value))
  {
    assert Get(md, "file").Some? <==> Has(md, "file");
    assert Get(md, "line_start").Some? <==> Has(md, "line_start");
    assert Get(md, "line_end").Some? <==> Has(md, "line_end");
  }

  lemma ShowsFunctionExactly(md: Meta)
    ensures var f := Get(md, "function_name");
            ShowsFunction(md) <==> f.Some? && f.value != SStr("") && f.value != SBool(false) && f.value != SStr("unknown")
  {
  }

  /** A result's text opens with its number and file and closes with its stripped code
      in a fence. */
  lemma ResultTextFrame(idx: int, r: VectorStore.SearchResult)
    ensures StartsWith(ResultText(idx, r),
                       "\n--- Result " + IntToString(idx) + " ---\nFile: " + FieldOr(r.metadata, "file", "unknown"))
    ensures EndsWith(ResultText(idx, r), "\n\nCode:\n```\n" + Strip(r.text) + "\n```")
  {
    ResultTextStart(idx, r);
    ResultTextEnd(idx, r);
  }

  lemma ResultTextStart(idx: int, r: VectorStore.SearchResult)
    ensures StartsWith(ResultText(idx, r),
                       "\n--- Result " + IntToString(idx) + " ---\nFile: " + FieldOr(r.metadata, "file", "unknown"))
  {
    var head := ResultHead(idx, r.metadata);
    var start := "\n--- Result " + IntToString(idx) + " ---\nFile: " + FieldOr(r.metadata, "file", "unknown");
    JoinStartsWithTwo(head, "\n");
    assert head[0] + "\n" + head[1] == start;
    JoinFrame(head, CodeLines(r.text), "\n", start);
  }

  lemma ResultTextEnd(idx: int, r: VectorStore.SearchResult)
    ensures EndsWith(ResultText(idx, r), "\n\nCode:\n```\n" + Strip(r.text) + "\n```")
  {
    var head := ResultHead(idx, r.metadata);
    var code := Strip(r.text);
    JoinStartsWithTwo(head, "\n");
    JoinFrame(head, CodeLines(r.text), "\n", head[0] + "\n" + head[1]);
    JoinFour("\nCode:", "```", code, "```", "\n");
    FenceText(code);
  }

  lemma FenceText(code: string)
    ensures "\n" + ("\nCode:" + "\n" + ("```" + "\n" + (code + "\n" + "```"))) == "\n\nCode:\n```\n" + code + "\n```"
  {
  }
}

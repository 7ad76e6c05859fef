/** Prompt assembly (bugtrace/agent/prompt_manager.py): the system prompt of each analysis
    mode, the user prompt built around a context, and the simple and follow-up
    conversations. The manager keeps no state. */
module PromptManager {
  import opened Strings
  import opened PyValue
  import ContextBuilder

  datatype Role = System | User | Assistant

  /** `Message(role=..., content=...)` */
  datatype Message = Message(role: Role, content: string)

  /** The `mode` argument: one of the four analysis modes with their own system prompt,
      header and instruction, or any other text. */
  datatype Mode = Debug | Explain | Review | Security | Other(name: string)

  function ModeOf(mode: string): (m: Mode)
    ensures m.Other? <==> mode !in {"debug", "explain", "review", "security"}
    ensures m.Other? ==> m.name == mode
  {
    if mode == "debug" then Debug
    else if mode == "explain" then Explain
    else if mode == "review" then Review
    else if mode == "security" then Security
    else Other(mode)
  }

  const DebugPrompt: string := @"You are an expert debugging assistant analyzing a real codebase.

IMPORTANT CONSTRAINTS (must follow strictly):
- Do NOT invent new classes, attributes, or methods that are not present in the provided code
- Do NOT assume access to objects unless explicitly shown in the code
- Validate each proposed fix by tracing execution step-by-step
- If a fix would fail, say so and correct it
- If information is missing, state the assumption explicitly

Your task:
1. Analyze the provided code snippets carefully
2. Identify the root cause of the bug
3. Provide specific, actionable fixes
4. Reference exact file locations (file path + line numbers)
5. Ensure the fix is internally consistent with the codebase

Format your response with these sections:
- **Root Cause**
- **Evidence** (file + line numbers)
- **Correct Fix** (validated against the code)
- **Why This Fix Works**
- **Prevention**

Be precise. Prefer correctness over confidence."

  const ExplainPrompt: string := @"You are a code explanation expert.

Your task:
1. Explain how the provided code works
2. Describe the flow and logic
3. Highlight important patterns or decisions
4. Point out potential issues or edge cases

Use clear language and reference specific files and line numbers."

  const ReviewPrompt: string := @"You are a code reviewer performing a thorough review.

Your task:
1. Review code quality and best practices
2. Identify potential bugs or issues
3. Suggest improvements
4. Highlight good patterns

Provide constructive feedback with specific file and line references."

  const SecurityPrompt: string := @"You are a security analyst reviewing code.

Your task:
1. Identify security vulnerabilities
2. Check for common security issues (SQL injection, XSS, etc.)
3. Review authentication and authorization
4. Check input validation

Provide specific security recommendations with code references."

  /** `SYSTEM_PROMPTS.get(mode, SYSTEM_PROMPTS["debug"])` */
  function SystemPrompt(mode: Mode): string {
    match mode
    case Debug => DebugPrompt
    case Explain => ExplainPrompt
    case Review => ReviewPrompt
    case Security => SecurityPrompt
    case Other(_) => DebugPrompt
  }

  /** A mode other than the four gets the debug system prompt. */
  lemma SystemPromptFallback(mode: string)
    ensures mode !in {"debug", "explain", "review", "security"} ==> SystemPrompt(ModeOf(mode)) == DebugPrompt
    ensures mode == "debug" ==> SystemPrompt(ModeOf(mode)) == DebugPrompt
  {
  }

  /** What the prompt reads of a context: the two summary counts, each of which may be
      missing, and the snippets. */
  datatype PromptContext = PromptContext(totalChunks: Option<int>, totalFiles: Option<int>,
                                         snippets: seq<ContextBuilder.Snippet>)

  /** A context as `build_context` makes it. */
  function OfContext(c: ContextBuilder.Context): PromptContext {
    PromptContext(Some(c.summary.totalChunks), Some(c.summary.totalFiles), c.snippets)
  }

  /** The line opening the user prompt, for the four modes. */
  function Header(mode: Mode, query: string): seq<string> {
    match mode
    case Debug => ["**Bug Description:** " + query]
    case Explain => ["**Explain:** " + query]
    case Review => ["**Review Request:** " + query]
    case Security => ["**Security Concern:** " + query]
    case Other(_) => []
  }

  const DebugInstruction: string := "**Based on this code, identify what's causing the bug and how to fix it.**"
  const ExplainInstruction: string := "**Explain how this code works and what it's trying to accomplish.**"
  const ReviewInstruction: string := "**Review this code and provide improvement suggestions.**"
  const SecurityInstruction: string := "**Analyze this code for security vulnerabilities.**"

  /** The line closing the user prompt, for the four modes. */
  function Instruction(mode: Mode): seq<string> {
    match mode
    case Debug => [DebugInstruction]
    case Explain => [ExplainInstruction]
    case Review => [ReviewInstruction]
    case Security => [SecurityInstruction]
    case Other(_) => []
  }

  /** The context line, with 0 for a missing count. */
  function ContextLine(pc: PromptContext): string {
    "**Context:** Analyzing " + IntToString(pc.totalChunks.GetOr(0)) + " code snippets from "
    + IntToString(pc.totalFiles.GetOr(0)) + " files"
  }

  // ----- `_format_snippet` -----

  /** The notes of a snippet, in this order. */
  function Notes(md: Meta): seq<string> {
    (if ContextBuilder.NoErrorHandling(md) then ["\U{26A0}\U{FE0F} No error handling"] else [])
    + (if ContextBuilder.NoLogging(md) then ["\U{26A0}\U{FE0F} No logging"] else [])
    + (if ContextBuilder.HasTodo(md) then ["\U{1F4DD} Has TODO comments"] else [])
  }

  function SnippetHeader(s: ContextBuilder.Snippet): (lines: seq<string>)
    ensures |lines| >= 2
  {
    var notes := Notes(s.metadata);
    ["---", "**File:** `" + s.file + "`"]
    + (if s.lines.Some? then ["**Lines:** " + s.lines.value] else [])
    + (if s.functionName.Some? then ["**Function:** `" + ScalarStr(s.functionName.value) + "`"] else [])
    + (if notes != [] then ["**Notes:** " + Join(notes, " \U{2022} ")] else [])
  }

  /** The code fence's tag: the metadata's `file_type` as the f-string renders it
      ("True" or "False" for a bool), or nothing when it is missing. */
  function FileTypeTag(md: Meta): string {
    var v := Get(md, "file_type");
    if v.Some? then ScalarStr(v.value) else ""
  }

  /** `_format_snippet(snippet)` */
  function FormatSnippet(s: ContextBuilder.Snippet): string {
    Join(SnippetHeader(s) + ["", "```" + FileTypeTag(s.metadata), Strip(s.code), "```"], "\n")
  }

  /** The header of a rendered snippet: the separator, the file, a Lines line exactly when
      the snippet has a line range, a Function line exactly when it has a function, and a
      Notes line exactly when there is a warning. */
  lemma SnippetHeaderLines(s: ContextBuilder.Snippet)
    ensures var h := SnippetHeader(s);
            var md := s.metadata;
            var warned := ContextBuilder.NoErrorHandling(md) || ContextBuilder.NoLogging(md) || ContextBuilder.HasTodo(md);
            && h[0] == "---" && h[1] == "**File:** `" + s.file + "`"
            && |h| == 2 + (if s.lines.Some? then 1 else 0) + (if s.functionName.Some? then 1 else 0) + (if warned then 1 else 0)
            && (s.lines.Some? ==> h[2] == "**Lines:** " + s.lines.value)
            && (s.functionName.Some? ==> h[if s.lines.Some? then 3 else 2] == "**Function:** `" + ScalarStr(s.functionName.value) + "`")
            && (warned ==> h[|h| - 1] == "**Notes:** " + Join(Notes(md), " \U{2022} "))
  {
    var md := s.metadata;
    var warned := ContextBuilder.NoErrorHandling(md) || ContextBuilder.NoLogging(md) || ContextBuilder.HasTodo(md);
    assert Notes(md) != [] <==> warned;
  }

  /** A rendered snippet opens with the separator and its file and closes with the
      stripped code fenced under the `file_type` tag. */
  lemma FormatSnippetFrame(s: ContextBuilder.Snippet)
    ensures StartsWith(FormatSnippet(s), "---\n**File:** `" + s.file + "`")
    ensures EndsWith(FormatSnippet(s), "\n\n```" + FileTypeTag(s.metadata) + "\n" + Strip(s.code) + "\n```")
  {
    var h := SnippetHeader(s);
    var ft := FileTypeTag(s.metadata);
    var block := ["", "```" + ft, Strip(s.code), "```"];
    assert FormatSnippet(s) == Join(h + block, "\n");
    SnippetHeaderStart(s);
    JoinFrame(h, block, "\n", "---\n**File:** `" + s.file + "`");
    CodeBlockText(ft, Strip(s.code));
  }

  lemma SnippetHeaderStart(s: ContextBuilder.Snippet)
    ensures StartsWith(Join(SnippetHeader(s), "\n"), "---\n**File:** `" + s.file + "`")
  {
    var h := SnippetHeader(s);
    assert h[0] == "---" && h[1] == "**File:** `" + s.file + "`";
    JoinStartsWithTwo(h, "\n");
    assert "---" + "\n" + ("**File:** `" + s.file + "`") == "---\n**File:** `" + s.file + "`";
  }

  lemma CodeBlockText(fileType: string, code: string)
    ensures "\n" + Join(["", "```" + fileType, code, "```"], "\n") == "\n\n```" + fileType + "\n" + code + "\n```"
  {
    var fence := "```" + fileType;
    JoinFour("", fence, code, "```", "\n");
    assert "\n" + ("" + "\n" + (fence + "\n" + (code + "\n" + "```"))) == "\n\n```" + fileType + "\n" + code + "\n```";
  }

  // ----- `_build_user_prompt` and the conversations -----

  function FormattedSnippets(snippets: seq<ContextBuilder.Snippet>): (texts: seq<string>)
    ensures |texts| == |snippets|
    ensures forall i | 0 <= i < |snippets| :: texts[i] == FormatSnippet(snippets[i])
  {
    seq(|snippets|, i requires 0 <= i < |snippets| => FormatSnippet(snippets[i]))
  }

  /** The lines between the header and the snippets. */
  function Preamble(pc: PromptContext): seq<string> {
    ["", ContextLine(pc), "", "**Relevant Code:**", ""]
  }

  /** `_build_user_prompt(query, context, mode)` */
  function UserPrompt(query: string, pc: PromptContext, mode: Mode): string {
    Join(Header(mode, query) + Preamble(pc) + Blocks(FormattedSnippets(pc.snippets)) + Instruction(mode), "\n")
  }

  /** A known mode has one header line and one instruction line; any other mode neither. */
  lemma HeaderAndInstruction(mode: Mode, query: string)
    ensures |Header(mode, query)| == |Instruction(mode)| == if mode.Other? then 0 else 1
  {
  }

  /** The user prompt: the mode's header line (none for an unknown mode), a blank line,
      the context line, a blank line, the Relevant Code line, then every snippet in order
      between line breaks, then the mode's instruction line (none for an unknown mode). */
  lemma UserPromptShape(query: string, pc: PromptContext, mode: Mode)
    ensures var texts := FormattedSnippets(pc.snippets);
            var body := "\n" + ContextLine(pc) + "\n\n**Relevant Code:**\n" + Wrapped(texts);
            UserPrompt(query, pc, mode)
              == (if mode.Other? then "" else Header(mode, query)[0] + "\n") + body
                 + (if mode.Other? then "" else "\n" + Instruction(mode)[0])
  {
    var h, p, texts, ins := Header(mode, query), Preamble(pc), FormattedSnippets(pc.snippets), Instruction(mode);
    assert UserPrompt(query, pc, mode) == Join(h + p + Blocks(texts) + ins, "\n");
    HeaderAndInstruction(mode, query);
    OpeningText(mode, query, ContextLine(pc));
    Assemble(h, p, texts, ins, "\n" + ContextLine(pc) + "\n\n**Relevant Code:**\n");
  }

  /** Optional opening and closing lines around a preamble and blocks. */
  lemma Assemble(h: seq<string>, p: seq<string>, texts: seq<string>, ins: seq<string>, pre: string)
    requires |h| <= 1 && |ins| <= 1 && p != []
    requires Join(h + p, "\n") == (if h == [] then "" else h[0] + "\n") + pre
    ensures Join(h + p + Blocks(texts) + ins, "\n")
              == (if h == [] then "" else h[0] + "\n") + (pre + Wrapped(texts)) + (if ins == [] then "" else "\n" + ins[0])
  {
    var opening := (if h == [] then "" else h[0] + "\n");
    JoinBlocks(h + p, texts);
    if ins != [] {
      assert ins == [ins[0]];
      JoinSnoc(h + p + Blocks(texts), ins[0], "\n");
      Regroup(opening, pre, Wrapped(texts), "\n", ins[0]);
    } else {
      assert h + p + Blocks(texts) + ins == h + p + Blocks(texts);
    }
  }

  /** The header line, if any, then the preamble. */
  lemma OpeningText(mode: Mode, query: string, c: string)
    ensures var h := Header(mode, query);
            Join(h + ["", c, "", "**Relevant Code:**", ""], "\n")
              == (if mode.Other? then "" else h[0] + "\n") + ("\n" + c + "\n\n**Relevant Code:**\n")
  {
    var h, p := Header(mode, query), ["", c, "", "**Relevant Code:**", ""];
    PreambleText(c);
    if !mode.Other? {
      assert h == [h[0]];
      JoinCons(h[0], p, "\n");
    } else {
      assert h + p == p;
    }
  }

  lemma Regroup(x: string, p: string, w: string, n: string, i: string)
    ensures x + p + w + n + i == x + (p + w) + (n + i)
  {
  }

  lemma PreambleText(c: string)
    ensures Join(["", c, "", "**Relevant Code:**", ""], "\n") == "\n" + c + "\n\n**Relevant Code:**\n"
  {
    JoinFive("", c, "", "**Relevant Code:**", "", "\n");
    assert "" + "\n" + (c + "\n" + ("" + "\n" + ("**Relevant Code:**" + "\n" + ""))) == "\n" + c + "\n\n**Relevant Code:**\n";
  }

  /** `build_debug_prompt(query, context, mode)` */
  function DebugMessages(query: string, pc: PromptContext, mode: Mode): seq<Message> {
    [Message(System, SystemPrompt(mode)), Message(User, UserPrompt(query, pc, mode))]
  }

  /** For a mode given as text, the system message is that mode's prompt (the debug one
      for any other text) and the user message opens with the mode's header line and
      closes with its instruction; an unknown mode gets the bare context and snippets. */
  lemma DebugMessagesByMode(query: string, pc: PromptContext, mode: string)
    ensures var r := DebugMessages(query, pc, ModeOf(mode));
            var body := "\n" + ContextLine(pc) + "\n\n**Relevant Code:**\n" + Wrapped(FormattedSnippets(pc.snippets));
            && |r| == 2 && r[0].role == System && r[1].role == User
            && (mode == "debug" ==>
                  r[0].content == DebugPrompt
                  && r[1].content == ("**Bug Description:** " + query + "\n") + body + ("\n" + DebugInstruction))
            && (mode == "explain" ==>
                  r[0].content == ExplainPrompt
                  && r[1].content == ("**Explain:** " + query + "\n") + body + ("\n" + ExplainInstruction))
            && (mode == "review" ==>
                  r[0].content == ReviewPrompt
                  && r[1].content == ("**Review Request:** " + query + "\n") + body + ("\n" + ReviewInstruction))
            && (mode == "security" ==>
                  r[0].content == SecurityPrompt
                  && r[1].content == ("**Security Concern:** " + query + "\n") + body + ("\n" + SecurityInstruction))
            && (mode !in {"debug", "explain", "review", "security"} ==>
                  r[0].content == DebugPrompt && r[1].content == body)
  {
    MessagesShape(query, pc, ModeOf(mode));
  }

  /** The user message of `build_debug_prompt` is the user prompt, laid out as
      `UserPromptShape` says. */
  lemma MessagesShape(query: string, pc: PromptContext, m: Mode)
    ensures var r := DebugMessages(query, pc, m);
            var body := "\n" + ContextLine(pc) + "\n\n**Relevant Code:**\n" + Wrapped(FormattedSnippets(pc.snippets));
            && |r| == 2 && r[0] == Message(System, SystemPrompt(m)) && r[1].role == User
            && r[1].content == (if m.Other? then "" else Header(m, query)[0] + "\n") + body
                               + (if m.Other? then "" else "\n" + Instruction(m)[0])
  {
    assert DebugMessages(query, pc, m)[1].content == UserPrompt(query, pc, m);
    UserPromptShape(query, pc, m);
  }

  /** `build_simple_prompt(query, code)` */
  function SimpleMessages(query: string, code: string): seq<Message> {
    [Message(System, DebugPrompt), Message(User, query + "\n\n```\n" + code + "\n```")]
  }

  /** The simple conversation is the debug system prompt, then the query, a blank line
      and the code fenced in triple backticks; the query and code are recoverable from it. */
  lemma SimpleMessagesShape(query: string, code: string)
    ensures var r := SimpleMessages(query, code);
            && |r| == 2 && r[0] == Message(System, DebugPrompt) && r[1].role == User
            && StartsWith(r[1].content, query + "\n\n```\n")
            && EndsWith(r[1].content, "\n```")
            && r[1].content[|query + "\n\n```\n"|..|r[1].content| - |"\n```"|] == code
  {
    var open := query + "\n\n```\n";
    StartsWithAppend(open, code, open);
    StartsWithAppend(open + code, "\n```", open);
    EndsWithAppend(open + code, "\n```");
    Between(open, code, "\n```");
  }

  /** `build_followup_prompt(original_query, original_response, followup_query)` */
  function FollowupMessages(originalQuery: string, originalResponse: string, followupQuery: string)
    : seq<Message>
  {
    [Message(System, DebugPrompt), Message(User, originalQuery), Message(Assistant, originalResponse),
     Message(User, followupQuery)]
  }

  /** A follow-up opens with the system message of the simple prompt and of a debug-mode
      prompt, then replays the first exchange and asks the new question, user and
      assistant turns alternating. */
  lemma FollowupReplaysExchange(originalQuery: string, originalResponse: string, followupQuery: string)
    ensures var r := FollowupMessages(originalQuery, originalResponse, followupQuery);
            && |r| == 4
            && r[0] == SimpleMessages(originalQuery, "")[0] == Message(System, SystemPrompt(ModeOf("debug")))
            && (forall i | 1 <= i < |r| :: r[i].role == if i % 2 == 1 then User else Assistant)
            && r[1].content == originalQuery && r[2].content == originalResponse && r[3].content == followupQuery
  {
  }
}

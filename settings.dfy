/** Configuration defaults and validation (bugtrace/config/settings.py). A configuration
    is the mapping read from `bugtrace.yaml`, as a `PyValue.Dict`. */
module Settings {
  import opened Strings
  import opened PyValue

  /** The five top-level sections, in the order they are checked. */
  const Sections: seq<string> := ["llm", "paths", "rag", "tools", "analysis"]

  /** The three tool switches, in the order they are checked. */
  const ToolNames: seq<string> := ["code_search", "log_search", "config_check"]

  /** `DEFAULT_CONFIG` */
  function DefaultConfig(): Dict {
    [("llm", VDict(DefaultLlm())), ("paths", VDict(DefaultPaths())), ("rag", VDict(DefaultRag())),
     ("tools", VDict(DefaultTools())), ("analysis", VDict(DefaultAnalysis()))]
  }

  function DefaultLlm(): Dict {
    [("provider", VStr("ollama")), ("model", VStr("llama3.2:3b")), ("temperature", VFloat(0.2, "0.2"))]
  }

  function DefaultPaths(): Dict {
    [("project_root", VStr(".")),
     ("ignore", VList([VStr("node_modules"), VStr("venv"), VStr(".git"), VStr(".bugtrace")])),
     ("logs", VList([VStr("logs/")]))]
  }

  function DefaultRag(): Dict {
    [("chunk_size", VInt(1000)), ("chunk_overlap", VInt(200)), ("top_k", VInt(6)), ("store", VStr("chroma"))]
  }

  function DefaultTools(): Dict {
    [("code_search", VBool(true)), ("log_search", VBool(true)), ("config_check", VBool(true))]
  }

  function DefaultAnalysis(): Dict {
    [("max_steps", VInt(5)), ("reasoning_style", VStr("concise"))]
  }

  /** The outcome of `validate_config`: the configuration itself, the text of the
      `ValueError` it raises, or the first section whose reading raises `TypeError` or
      `AttributeError` (see `SectionRaises`). */
  datatype Validation = Ok(config: Dict) | Invalid(message: string) | Malformed(section: string)

  /** `isinstance(v, int)`: a bool is an int in Python. */
  predicate IsInt(v: Value) {
    v.VInt? || v.VBool?
  }

  function IntOf(v: Value): int
    requires IsInt(v)
  {
    match v
    case VInt(i) => i
    case VBool(b) => if b then 1 else 0
  }

  /** `isinstance(v, (int, float))` */
  predicate IsNumber(v: Value) {
    v.VInt? || v.VBool? || v.VFloat?
  }

  function NumberOf(v: Value): real
    requires IsNumber(v)
  {
    match v
    case VInt(i) => i as real
    case VBool(b) => if b then 1.0 else 0.0
    case VFloat(x, _) => x
  }

  /** The sections of `names` that the configuration lacks, in order. */
  function MissingIn(config: Dict, names: seq<string>): (r: seq<string>)
    ensures |r| <= |names|
    ensures forall s :: s in r <==> s in names && !Has(config, s)
  {
    if names == [] then []
    else (if Has(config, names[0]) then [] else [names[0]]) + MissingIn(config, names[1..])
  }

  function MissingSections(config: Dict): seq<string> {
    MissingIn(config, Sections)
  }

  /** `"; ".join(...)` over the missing-section messages. */
  function SectionsMessage(missing: seq<string>): string {
    Join(seq(|missing|, i requires 0 <= i < |missing| => "Missing required section: '" + missing[i] + "'"), "; ")
  }

  /** The entries of a section that is a mapping. */
  function Section(config: Dict, name: string): Option<Dict> {
    var v := Get(config, name);
    if v.Some? && v.value.VDict? then Some(v.value.entries) else None
  }

  /** The keys `validate_config` probes with `key in section` in the sections it reads
      only that way: `paths` and `tools`. It indexes them only after a hit. */
  function ProbedKeys(name: string): seq<string> {
    if name == "paths" then ["ignore", "logs"] else if name == "tools" then ToolNames else []
  }

  /** `key in v` is false for every probed key, with `v` a list or a string. */
  predicate ProbesMiss(v: Value, keys: seq<string>) {
    || (v.VList? && forall k | k in keys :: VStr(k) !in v.items)
    || (v.VStr? && forall k | k in keys :: !Contains(v.s, k))
  }

  /** Reading the present section `name` raises: `llm`, `rag` and `analysis` are read
      with `.get`, which only a mapping has; `paths` and `tools` are only probed, so they
      raise unless they are a mapping or a list or string that no probe hits. */
  predicate SectionRaises(config: Dict, name: string) {
    && Has(config, name) && Section(config, name).None?
    && !((name == "paths" || name == "tools") && ProbesMiss(Get(config, name).value, ProbedKeys(name)))
  }

  /** The fields a section offers to the checks: its entries, or none for a list or a
      string that no probe hits. */
  function Fields(config: Dict, name: string): Dict {
    Section(config, name).GetOr([])
  }

  /** The first section, in checking order, whose reading raises. */
  function FirstRaising(config: Dict, names: seq<string>): (r: Option<string>)
    ensures r.Some? ==> r.value in names && SectionRaises(config, r.value)
    ensures r.None? ==> forall s | s in names :: !SectionRaises(config, s)
  {
    if names == [] then None
    else if SectionRaises(config, names[0]) then Some(names[0])
    else FirstRaising(config, names[1..])
  }

  function ProviderErrors(llm: Dict): seq<string> {
    match Get(llm, "provider")
    case None => ["llm.provider is required"]
    case Some(v) =>
      if v in [VStr("ollama"), VStr("openai"), VStr("anthropic")] then []
      else ["llm.provider must be one of: ollama, openai, anthropic (got '" + Str(v) + "')"]
  }

  function ModelErrors(llm: Dict): seq<string> {
    match Get(llm, "model")
    case None => ["llm.model is required"]
    case Some(v) =>
      if !v.VStr? || Strip(v.s) == "" then ["llm.model must be a non-empty string"] else []
  }

  function TemperatureErrors(llm: Dict): seq<string> {
    var t := Get(llm, "temperature").GetOr(VFloat(0.2, "0.2"));
    if !IsNumber(t) then ["llm.temperature must be a number"]
    else if NumberOf(t) < 0.0 || NumberOf(t) > 2.0 then ["llm.temperature must be between 0.0 and 2.0"]
    else []
  }

  /** The check on `paths.ignore` and `paths.logs`. */
  function StringListErrors(paths: Dict, key: string): seq<string> {
    match Get(paths, key)
    case None => []
    case Some(v) =>
      if !v.VList? then ["paths." + key + " must be a list"]
      else if exists i | 0 <= i < |v.items| :: !v.items[i].VStr? then ["paths." + key + " must contain only strings"]
      else []
  }

  /** An integer setting with a default, a type message and a range message. */
  function IntErrors(section: Dict, key: string, default: int, lo: int, hi: int,
                     typeMessage: string, rangeMessage: string): seq<string> {
    var v := Get(section, key).GetOr(VInt(default));
    if !IsInt(v) then [typeMessage]
    else if IntOf(v) < lo || IntOf(v) > hi then [rangeMessage]
    else []
  }

  function ChunkSizeErrors(rag: Dict): seq<string> {
    IntErrors(rag, "chunk_size", 1000, 1, 2000, "rag.chunk_size must be an integer",
              "rag.chunk_size must be between 1 and 2000")
  }

  /** The range message names `chunk_size`, as the source writes it. */
  function ChunkOverlapErrors(rag: Dict): seq<string> {
    IntErrors(rag, "chunk_overlap", 200, 200, 2000, "rag.chunk_overlap must be an integer",
              "rag.chunk_size must be between 200 and 2000")
  }

  function TopKErrors(rag: Dict): seq<string> {
    IntErrors(rag, "top_k", 6, 1, 20, "rag.top_k must be an integer", "rag.top_k must be between 1 and 20")
  }

  function StoreErrors(rag: Dict): seq<string> {
    match Get(rag, "store")
    case None => []
    case Some(v) => if v == VStr("chroma") then [] else ["rag.store must be one of: chroma (got '" + Str(v) + "')"]
  }

  /** A tool switch is absent or a bool. */
  predicate ToolOk(tools: Dict, name: string) {
    var v := Get(tools, name);
    v.None? || v.value.VBool?
  }

  function ToolErrors(tools: Dict, names: seq<string>): seq<string> {
    if names == [] then []
    else (if ToolOk(tools, names[0]) then [] else ["tools." + names[0] + " must be true or false"])
         + ToolErrors(tools, names[1..])
  }

  function MaxStepsErrors(analysis: Dict): seq<string> {
    IntErrors(analysis, "max_steps", 5, 1, 20, "analysis.max_steps must be an integer",
              "analysis.max_steps must be between 1 and 20")
  }

  function ReasoningStyleErrors(analysis: Dict): seq<string> {
    var style := Get(analysis, "reasoning_style").GetOr(VStr("concise"));
    if style in [VStr("concise"), VStr("detailed"), VStr("step-by-step")] then []
    else ["analysis.reasoning_style must be one of: concise, detailed, step-by-step (got '" + Str(style) + "')"]
  }

  function LlmErrors(llm: Dict): seq<string> {
    ProviderErrors(llm) + ModelErrors(llm) + TemperatureErrors(llm)
  }

  function PathsErrors(paths: Dict): seq<string> {
    StringListErrors(paths, "ignore") + StringListErrors(paths, "logs")
  }

  function RagErrors(rag: Dict): seq<string> {
    ChunkSizeErrors(rag) + ChunkOverlapErrors(rag) + TopKErrors(rag) + StoreErrors(rag)
  }

  function AnalysisErrors(analysis: Dict): seq<string> {
    MaxStepsErrors(analysis) + ReasoningStyleErrors(analysis)
  }

  /** Every field error, in the order `validate_config` appends them. */
  function FieldErrors(llm: Dict, paths: Dict, rag: Dict, tools: Dict, analysis: Dict): seq<string> {
    LlmErrors(llm) + PathsErrors(paths) + RagErrors(rag) + ToolErrors(tools, ToolNames) + AnalysisErrors(analysis)
  }

  /** `"\n  • " + "\n  • ".join(errors)` */
  function FieldsMessage(errors: seq<string>): string {
    "\n  • " + Join(errors, "\n  • ")
  }

  /** `validate_config(config)` */
  function ValidateConfig(config: Dict): (r: Validation)
    ensures r.Ok? ==> r.config == config
    ensures MissingSections(config) != [] ==> r == Invalid(SectionsMessage(MissingSections(config)))
  {
    var missing := MissingSections(config);
    if missing != [] then Invalid(SectionsMessage(missing))
    else match FirstRaising(config, Sections)
      case Some(s) => Malformed(s)
      case None =>
        var errors := FieldErrors(Fields(config, "llm"), Fields(config, "paths"), Fields(config, "rag"),
                                  Fields(config, "tools"), Fields(config, "analysis"));
        if errors == [] then Ok(config) else Invalid(FieldsMessage(errors))
  }

  // ---------------------------------------------------------------------------------
  // What a valid configuration is, stated field by field.

  /** An optional integer setting is absent or an int (bools included) within [lo, hi]. */
  predicate IntSettingOk(section: Dict, key: string, lo: int, hi: int) {
    match Get(section, key)
    case None => true
    case Some(v) => IsInt(v) && lo <= IntOf(v) <= hi
  }

  /** The model is a string with a non-space character. */
  predicate ModelOk(llm: Dict) {
    var m := Get(llm, "model");
    m.Some? && m.value.VStr? && !AllSpace(m.value.s)
  }

  predicate ProviderOk(llm: Dict) {
    Get(llm, "provider") in {Some(VStr("ollama")), Some(VStr("openai")), Some(VStr("anthropic"))}
  }

  /** The temperature is absent or a number within [0, 2]. */
  predicate TemperatureOk(llm: Dict) {
    var t := Get(llm, "temperature");
    t.None? || (IsNumber(t.value) && 0.0 <= NumberOf(t.value) <= 2.0)
  }

  predicate LlmOk(llm: Dict) {
    ProviderOk(llm) && ModelOk(llm) && TemperatureOk(llm)
  }

  predicate StringListOk(paths: Dict, key: string) {
    match Get(paths, key)
    case None => true
    case Some(v) => v.VList? && forall item | item in v.items :: item.VStr?
  }

  predicate RagOk(rag: Dict) {
    && IntSettingOk(rag, "chunk_size", 1, 2000)
    && IntSettingOk(rag, "chunk_overlap", 200, 2000)
    && IntSettingOk(rag, "top_k", 1, 20)
    && Get(rag, "store") in {None, Some(VStr("chroma"))}
  }

  predicate ToolsOk(tools: Dict) {
    forall name | name in ToolNames :: ToolOk(tools, name)
  }

  predicate AnalysisOk(analysis: Dict) {
    && IntSettingOk(analysis, "max_steps", 1, 20)
    && Get(analysis, "reasoning_style") in
         {None, Some(VStr("concise")), Some(VStr("detailed")), Some(VStr("step-by-step"))}
  }

  /** Every section is present; `llm`, `rag` and `analysis` are mappings; `paths` and
      `tools` are mappings, or lists or strings holding none of the keys probed in them;
      and every field is acceptable. */
  predicate ConfigValid(config: Dict) {
    && (forall s | s in Sections :: Has(config, s))
    && Section(config, "llm").Some? && Section(config, "rag").Some? && Section(config, "analysis").Some?
    && (Section(config, "paths").Some? || ProbesMiss(Get(config, "paths").value, ["ignore", "logs"]))
    && (Section(config, "tools").Some? || ProbesMiss(Get(config, "tools").value, ToolNames))
    && LlmOk(Fields(config, "llm"))
    && StringListOk(Fields(config, "paths"), "ignore")
    && StringListOk(Fields(config, "paths"), "logs")
    && RagOk(Fields(config, "rag"))
    && ToolsOk(Fields(config, "tools"))
    && AnalysisOk(Fields(config, "analysis"))
  }

  lemma {:induction false} ToolErrorsEmpty(tools: Dict, names: seq<string>)
    ensures ToolErrors(tools, names) == [] <==> forall name | name in names :: ToolOk(tools, name)
  {
    if names != [] {
      ToolErrorsEmpty(tools, names[1..]);
      assert forall name | name in names :: name == names[0] || name in names[1..];
    }
  }

  lemma IntErrorsEmpty(section: Dict, key: string, default: int, lo: int, hi: int, tm: string, rm: string)
    requires lo <= default <= hi
    ensures IntErrors(section, key, default, lo, hi, tm, rm) == [] <==> IntSettingOk(section, key, lo, hi)
  {
  }

  lemma LlmErrorsEmpty(llm: Dict)
    ensures LlmErrors(llm) == [] <==> LlmOk(llm)
  {
    var p, m, t := ProviderErrors(llm), ModelErrors(llm), TemperatureErrors(llm);
    assert p == [] <==> ProviderOk(llm);
    assert m == [] <==> ModelOk(llm);
    assert t == [] <==> TemperatureOk(llm);
    assert |LlmErrors(llm)| == |p| + |m| + |t|;
  }

  lemma PathsErrorsEmpty(paths: Dict)
    ensures PathsErrors(paths) == [] <==> StringListOk(paths, "ignore") && StringListOk(paths, "logs")
  {
    var i, l := StringListErrors(paths, "ignore"), StringListErrors(paths, "logs");
    assert i == [] <==> StringListOk(paths, "ignore");
    assert l == [] <==> StringListOk(paths, "logs");
    assert |PathsErrors(paths)| == |i| + |l|;
  }

  lemma RagErrorsEmpty(rag: Dict)
    ensures RagErrors(rag) == [] <==> RagOk(rag)
  {
    IntErrorsEmpty(rag, "chunk_size", 1000, 1, 2000, "rag.chunk_size must be an integer",
                   "rag.chunk_size must be between 1 and 2000");
    IntErrorsEmpty(rag, "chunk_overlap", 200, 200, 2000, "rag.chunk_overlap must be an integer",
                   "rag.chunk_size must be between 200 and 2000");
    IntErrorsEmpty(rag, "top_k", 6, 1, 20, "rag.top_k must be an integer", "rag.top_k must be between 1 and 20");
  }

  lemma AnalysisErrorsEmpty(analysis: Dict)
    ensures AnalysisErrors(analysis) == [] <==> AnalysisOk(analysis)
  {
    IntErrorsEmpty(analysis, "max_steps", 5, 1, 20, "analysis.max_steps must be an integer",
                   "analysis.max_steps must be between 1 and 20");
  }

  /** `validate_config` accepts a configuration exactly when every section is present
      and readable without raising and every field is acceptable (`ConfigValid`); it
      then returns it unchanged. */
  lemma ValidateConfigAcceptsExactly(config: Dict)
    ensures ValidateConfig(config).Ok? <==> ConfigValid(config)
  {
    var missing := MissingSections(config);
    if missing != [] {
      var s := missing[0];
      assert s in Sections && !Has(config, s);
    } else if FirstRaising(config, Sections).Some? {
      RaisingSectionInvalid(config, FirstRaising(config, Sections).value);
    } else {
      forall s | s in Sections ensures Has(config, s) {
        assert s !in missing;
      }
      NoRaisingSectionShape(config);
      FieldErrorsEmpty(config);
    }
  }

  /** A section whose reading raises makes the configuration invalid. */
  lemma RaisingSectionInvalid(config: Dict, s: string)
    requires s in Sections && SectionRaises(config, s)
    ensures !ConfigValid(config)
  {
    assert s == "llm" || s == "paths" || s == "rag" || s == "tools" || s == "analysis";
  }

  /** When no present section raises, each one has the shape `ConfigValid` asks for. */
  lemma NoRaisingSectionShape(config: Dict)
    requires forall s | s in Sections :: Has(config, s) && !SectionRaises(config, s)
    ensures Section(config, "llm").Some? && Section(config, "rag").Some? && Section(config, "analysis").Some?
    ensures Section(config, "paths").Some? || ProbesMiss(Get(config, "paths").value, ["ignore", "logs"])
    ensures Section(config, "tools").Some? || ProbesMiss(Get(config, "tools").value, ToolNames)
  {
    assert "llm" in Sections && "rag" in Sections && "analysis" in Sections;
    assert "paths" in Sections && "tools" in Sections;
  }

  /** The field checks find nothing exactly when every field is acceptable. */
  lemma FieldErrorsEmpty(config: Dict)
    ensures FieldErrors(Fields(config, "llm"), Fields(config, "paths"), Fields(config, "rag"),
                        Fields(config, "tools"), Fields(config, "analysis")) == []
            <==> && LlmOk(Fields(config, "llm"))
                 && StringListOk(Fields(config, "paths"), "ignore") && StringListOk(Fields(config, "paths"), "logs")
                 && RagOk(Fields(config, "rag")) && ToolsOk(Fields(config, "tools")) && AnalysisOk(Fields(config, "analysis"))
  {
    var llm, paths, rag := Fields(config, "llm"), Fields(config, "paths"), Fields(config, "rag");
    var tools, analysis := Fields(config, "tools"), Fields(config, "analysis");
    LlmErrorsEmpty(llm);
    RagErrorsEmpty(rag);
    ToolErrorsEmpty(tools, ToolNames);
    AnalysisErrorsEmpty(analysis);
    PathsErrorsEmpty(paths);
  }

  /** The fallback configuration is itself valid. */
  lemma DefaultConfigValid()
    ensures ValidateConfig(DefaultConfig()) == Ok(DefaultConfig())
  {
    DefaultSections();
    DefaultFieldsValid();
    ValidFromSections(DefaultConfig(), DefaultLlm(), DefaultPaths(), DefaultRag(), DefaultTools(), DefaultAnalysis());
    ValidateConfigAcceptsExactly(DefaultConfig());
  }

  /** A configuration whose five sections are valid mappings is valid. */
  lemma ValidFromSections(c: Dict, llm: Dict, paths: Dict, rag: Dict, tools: Dict, analysis: Dict)
    requires Section(c, "llm") == Some(llm) && Section(c, "paths") == Some(paths)
    requires Section(c, "rag") == Some(rag) && Section(c, "tools") == Some(tools)
    requires Section(c, "analysis") == Some(analysis)
    requires LlmOk(llm) && StringListOk(paths, "ignore") && StringListOk(paths, "logs")
    requires RagOk(rag) && ToolsOk(tools) && AnalysisOk(analysis)
    ensures ConfigValid(c)
  {
    forall s | s in Sections ensures Has(c, s) {
      assert s == "llm" || s == "paths" || s == "rag" || s == "tools" || s == "analysis";
    }
  }

  lemma DefaultSections()
    ensures Section(DefaultConfig(), "llm") == Some(DefaultLlm())
    ensures Section(DefaultConfig(), "paths") == Some(DefaultPaths())
    ensures Section(DefaultConfig(), "rag") == Some(DefaultRag())
    ensures Section(DefaultConfig(), "tools") == Some(DefaultTools())
    ensures Section(DefaultConfig(), "analysis") == Some(DefaultAnalysis())
  {
    var c := DefaultConfig();
    assert Get(c[1..], "paths") == Some(VDict(DefaultPaths()));
    assert Get(c[2..], "rag") == Some(VDict(DefaultRag()));
    assert Get(c[1..], "rag") == Some(VDict(DefaultRag()));
    assert Get(c[3..], "tools") == Some(VDict(DefaultTools()));
    assert Get(c[2..], "tools") == Some(VDict(DefaultTools()));
    assert Get(c[1..], "tools") == Some(VDict(DefaultTools()));
    assert Get(c[4..], "analysis") == Some(VDict(DefaultAnalysis()));
    assert Get(c[3..], "analysis") == Some(VDict(DefaultAnalysis()));
    assert Get(c[2..], "analysis") == Some(VDict(DefaultAnalysis()));
    assert Get(c[1..], "analysis") == Some(VDict(DefaultAnalysis()));
  }

  lemma DefaultFieldsValid()
    ensures LlmOk(DefaultLlm())
    ensures StringListOk(DefaultPaths(), "ignore") && StringListOk(DefaultPaths(), "logs")
    ensures RagOk(DefaultRag()) && ToolsOk(DefaultTools()) && AnalysisOk(DefaultAnalysis())
  {
    DefaultLlmValid();
    DefaultPathsValid();
    DefaultRagValid();
    DefaultToolsValid();
    DefaultAnalysisValid();
  }

  lemma DefaultLlmValid()
    ensures LlmOk(DefaultLlm())
  {
    var llm := DefaultLlm();
    assert Get(llm[2..], "temperature") == Some(VFloat(0.2, "0.2"));
    assert Get(llm[1..], "model") == Some(VStr("llama3.2:3b"));
    var m := "llama3.2:3b";
    assert m[0] == 'l' && !IsSpace(m[0]);
  }

  lemma DefaultPathsValid()
    ensures StringListOk(DefaultPaths(), "ignore") && StringListOk(DefaultPaths(), "logs")
  {
    var paths := DefaultPaths();
    assert Get(paths[2..], "logs").Some?;
    assert Get(paths[1..], "ignore").Some?;
  }

  lemma DefaultRagValid()
    ensures RagOk(DefaultRag())
  {
    var rag := DefaultRag();
    assert Get(rag[3..], "store") == Some(VStr("chroma"));
    assert Get(rag[2..], "top_k") == Some(VInt(6));
    assert Get(rag[1..], "chunk_overlap") == Some(VInt(200));
  }

  lemma DefaultToolsValid()
    ensures ToolsOk(DefaultTools())
  {
    var tools := DefaultTools();
    assert Get(tools[2..], "config_check") == Some(VBool(true));
    assert Get(tools[1..], "log_search") == Some(VBool(true));
    assert Get(tools[1..], "config_check") == Some(VBool(true));
    forall name | name in ToolNames ensures ToolOk(tools, name) {
      assert name == "code_search" || name == "log_search" || name == "config_check";
    }
  }

  lemma DefaultAnalysisValid()
    ensures AnalysisOk(DefaultAnalysis())
  {
    var analysis := DefaultAnalysis();
    assert Get(analysis[1..], "reasoning_style") == Some(VStr("concise"));
  }

  /** The configuration with these five sections, in checking order. */
  function Assembled(llm: Value, paths: Value, rag: Value, tools: Value, analysis: Value): Dict {
    [("llm", llm), ("paths", paths), ("rag", rag), ("tools", tools), ("analysis", analysis)]
  }

  lemma AssembledLookups(llm: Value, paths: Value, rag: Value, tools: Value, analysis: Value)
    ensures var c := Assembled(llm, paths, rag, tools, analysis);
            && Get(c, "llm") == Some(llm) && Get(c, "paths") == Some(paths) && Get(c, "rag") == Some(rag)
            && Get(c, "tools") == Some(tools) && Get(c, "analysis") == Some(analysis)
            && MissingSections(c) == []
  {
    var c := Assembled(llm, paths, rag, tools, analysis);
    assert Get(c[4..], "analysis") == Some(analysis);
    assert Get(c[3..], "analysis") == Some(analysis);
    assert Get(c[2..], "analysis") == Some(analysis);
    assert Get(c[1..], "analysis") == Some(analysis);
    assert Get(c[3..], "tools") == Some(tools);
    assert Get(c[2..], "tools") == Some(tools);
    assert Get(c[1..], "tools") == Some(tools);
    assert Get(c[2..], "rag") == Some(rag);
    assert Get(c[1..], "rag") == Some(rag);
    assert Get(c[1..], "paths") == Some(paths);
    assert Get(c, "llm").Some? && Get(c, "paths").Some? && Get(c, "rag").Some?;
    assert Get(c, "tools").Some? && Get(c, "analysis").Some?;
    assert MissingIn(c, Sections[4..]) == [];
    assert MissingIn(c, Sections[3..]) == [];
    assert MissingIn(c, Sections[2..]) == [];
    assert MissingIn(c, Sections[1..]) == [];
  }

  /** `paths` and `tools` need not be mappings: a string or a list that no membership
      probe hits passes as if the section were empty. */
  lemma UnprobedSectionsAccepted(llm: Dict, rag: Dict, analysis: Dict)
    requires LlmOk(llm) && RagOk(rag) && AnalysisOk(analysis)
    ensures var c := Assembled(VDict(llm), VStr("src"), VDict(rag), VList([VStr("grep")]), VDict(analysis));
            ValidateConfig(c) == Ok(c)
  {
    var c := Assembled(VDict(llm), VStr("src"), VDict(rag), VList([VStr("grep")]), VDict(analysis));
    AssembledLookups(VDict(llm), VStr("src"), VDict(rag), VList([VStr("grep")]), VDict(analysis));
    assert ProbesMiss(VStr("src"), ["ignore", "logs"]);
    assert ProbesMiss(VList([VStr("grep")]), ToolNames);
    forall s | s in Sections ensures Has(c, s) {
      assert s == "llm" || s == "paths" || s == "rag" || s == "tools" || s == "analysis";
    }
    assert ConfigValid(c);
    ValidateConfigAcceptsExactly(c);
  }

  /** A `tools` list holding a tool's name raises when that entry is indexed, whatever
      the other sections hold. */
  lemma ProbedListSectionRaises(llm: Dict, rag: Dict, analysis: Dict)
    ensures ValidateConfig(Assembled(VDict(llm), VStr("src"), VDict(rag), VList([VStr("code_search")]), VDict(analysis)))
            == Malformed("tools")
  {
    var c := Assembled(VDict(llm), VStr("src"), VDict(rag), VList([VStr("code_search")]), VDict(analysis));
    AssembledLookups(VDict(llm), VStr("src"), VDict(rag), VList([VStr("code_search")]), VDict(analysis));
    assert ProbesMiss(VStr("src"), ["ignore", "logs"]);
    assert "code_search" in ToolNames;
    assert SectionRaises(c, "tools");
    assert !SectionRaises(c, "llm") && !SectionRaises(c, "paths") && !SectionRaises(c, "rag");
    assert FirstRaising(c, Sections) == Some("tools") by {
      assert Sections[1..][1..][1..] == ["tools", "analysis"];
    }
  }
}

/**
 * The EDA agent: its catalogue of analysis tools, the choice of analysis code
 * for a tool or a free-text query, the filter that picks key findings out of an
 * analysis's printed output, the automatic analysis plan, and the agent's
 * effect on its history, its dataset schema and its compression client.
 *
 * What pandas, the code executor, the clock and the remote compressor do is
 * taken as given (an `Environment` of functions); the template bodies of the
 * generated analysis code are opaque strings supplied by it.
 */
module Agent {
  import opened Text
  import opened Wrappers
  import Dicts
  import History
  import Schema
  import ScaleDown

  // ---------------------------------------------------------------------------
  // The tool catalogue: `TOOLS`

  datatype Tool =
    | Overview | Describe | Correlations | Distributions | ValueCounts
    | MissingAnalysis | Outliers | Pairplot | TimeAnalysis | Custom

  function Tag(t: Tool): string {
    match t
    case Overview => "overview"
    case Describe => "describe"
    case Correlations => "correlations"
    case Distributions => "distributions"
    case ValueCounts => "value_counts"
    case MissingAnalysis => "missing_analysis"
    case Outliers => "outliers"
    case Pairplot => "pairplot"
    case TimeAnalysis => "time_analysis"
    case Custom => "custom"
  }

  /** `TOOLS`, in its insertion order. */
  const Tools: Dicts.Dict<string> := [
    ("overview", "Get dataset overview (shape, types, memory, null counts)"),
    ("describe", "Statistical summary of numeric columns"),
    ("correlations", "Correlation matrix and top correlations"),
    ("distributions", "Distribution plots for numeric columns"),
    ("value_counts", "Value counts for categorical columns"),
    ("missing_analysis", "Analyze missing value patterns"),
    ("outliers", "Detect outliers using IQR method"),
    ("pairplot", "Pairwise scatter plots for numeric columns"),
    ("time_analysis", "Time-based analysis (if datetime columns exist)"),
    ("custom", "Run custom analysis based on user query")]

  /** The tool a tag names, if it names one: the inverse of `Tag`. */
  function ParseTag(tag: string): (r: Option<Tool>)
    ensures r.Some? ==> Tag(r.value) == tag
    ensures r.None? ==> forall t: Tool :: Tag(t) != tag
  {
    if tag == "overview" then Some(Overview)
    else if tag == "describe" then Some(Describe)
    else if tag == "correlations" then Some(Correlations)
    else if tag == "distributions" then Some(Distributions)
    else if tag == "value_counts" then Some(ValueCounts)
    else if tag == "missing_analysis" then Some(MissingAnalysis)
    else if tag == "outliers" then Some(Outliers)
    else if tag == "pairplot" then Some(Pairplot)
    else if tag == "time_analysis" then Some(TimeAnalysis)
    else if tag == "custom" then Some(Custom)
    else None
  }

  lemma ParseTagOfTag(t: Tool)
    ensures ParseTag(Tag(t)) == Some(t)
  {
  }

  /** The catalogue holds exactly the tags of the tools. */
  lemma ToolsKeys(tag: string)
    ensures tag in Dicts.Keys(Tools) <==> ParseTag(tag).Some?
  {
    var ks := Dicts.Keys(Tools);
    assert ks == ["overview", "describe", "correlations", "distributions", "value_counts",
                  "missing_analysis", "outliers", "pairplot", "time_analysis", "custom"];
  }

  /** A step's description, `TOOLS.get(tag, query or tag)`. */
  function StepDescription(tag: string, query: string): string {
    Dicts.Get(Tools, tag, if query != "" then query else tag)
  }

  /**
   * A catalogued tag is described by its catalogue entry, whatever the query;
   * any other tag by the query, or by the tag itself when the query is empty.
   */
  lemma StepDescriptionSpec(tag: string, query: string)
    ensures ParseTag(tag).Some? ==>
      exists k :: 0 <= k < |Tools| && Tools[k] == (tag, StepDescription(tag, query))
    ensures ParseTag(tag).None? ==> StepDescription(tag, query) == (if query != "" then query else tag)
  {
    ToolsKeys(tag);
    Dicts.GetValue(Tools, tag, if query != "" then query else tag);
    if ParseTag(tag).Some? {
      var k := Dicts.FirstIndex(Dicts.Keys(Tools), tag);
      assert Tools[k] == (tag, StepDescription(tag, query));
    }
  }

  // ---------------------------------------------------------------------------
  // Choosing the analysis code: `_generate_code` and `_code_custom`

  /** Generated analysis code: a tool's fixed template, the generic template around a query, or one literal line. */
  datatype Code = Template(tool: Tool) | Generic(query: string) | Literal(text: string)

  /** The keyword groups of `_code_custom`, in the priority order they are tried, with the tool each selects. */
  const Routes: seq<(seq<string>, Tool)> := [
    (["correlat", "relationship", "relation"], Correlations),
    (["distribut", "histogram", "hist"], Distributions),
    (["missing", "null", "nan"], MissingAnalysis),
    (["outlier", "anomal"], Outliers),
    (["categor", "value count", "unique"], ValueCounts),
    (["describe", "summary", "stats", "statistic"], Describe),
    (["overview", "info", "shape"], Overview),
    (["pair", "scatter"], Pairplot),
    (["time", "date", "trend", "temporal"], TimeAnalysis)]

  /** `any(w in s for w in words)`. */
  predicate AnyIn(words: seq<string>, s: string) {
    exists k :: 0 <= k < |words| && Contains(s, words[k])
  }

  /** The first group from `i` on with a keyword in `q`, or `|Routes|` when there is none. */
  function FirstRoute(q: string, i: nat): (g: nat)
    requires i <= |Routes|
    ensures i <= g <= |Routes|
    ensures g < |Routes| ==> AnyIn(Routes[g].0, q)
    ensures forall j :: i <= j < g ==> !AnyIn(Routes[j].0, q)
    decreases |Routes| - i
  {
    if i == |Routes| then i
    else if AnyIn(Routes[i].0, q) then i
    else FirstRoute(q, i + 1)
  }

  /**
   * `_code_custom`: the lower-cased query selects the template of the first
   * group, in priority order, that has a keyword in it; a query that matches no
   * group gets the generic template around the query.
   */
  function CodeCustom(query: string): (c: Code)
    ensures c.Template? <==> exists j :: 0 <= j < |Routes| && AnyIn(Routes[j].0, Lower(query))
    ensures c.Template? ==> exists j :: (0 <= j < |Routes| && AnyIn(Routes[j].0, Lower(query))
      && c.tool == Routes[j].1 && forall i :: 0 <= i < j ==> !AnyIn(Routes[i].0, Lower(query)))
    ensures !c.Template? ==> c == Generic(query)
  {
    var g := FirstRoute(Lower(query), 0);
    if g < |Routes| then Template(Routes[g].1) else Generic(query)
  }

  /** A query with keywords of several groups goes to the group tried first: "missing correlation" to the correlations. */
  lemma MissingCorrelationRoutesToCorrelations()
    ensures CodeCustom("missing correlation") == Template(Correlations)
  {
    var s := "missing correlation";
    var q := Lower(s);
    assert q == s;
    assert s[8..16] == "correlat";
    ContainsAt(q, "correlat", 8);
    assert Routes[0].0[0] == "correlat";
    assert AnyIn(Routes[0].0, q);
  }

  /** `_generate_code`: the catalogue's tags select their templates, and any other tag one line reporting it. */
  function GenerateCode(tag: string, query: string): (c: Code)
    ensures ParseTag(tag) == Some(Custom) ==> c == CodeCustom(query)
    ensures ParseTag(tag).Some? && ParseTag(tag) != Some(Custom) ==> c == Template(ParseTag(tag).value)
    ensures ParseTag(tag).None? ==> c == Literal("print(\"Unknown tool: " + tag + "\")")
  {
    if tag == "overview" then Template(Overview)
    else if tag == "describe" then Template(Describe)
    else if tag == "correlations" then Template(Correlations)
    else if tag == "distributions" then Template(Distributions)
    else if tag == "value_counts" then Template(ValueCounts)
    else if tag == "missing_analysis" then Template(MissingAnalysis)
    else if tag == "outliers" then Template(Outliers)
    else if tag == "pairplot" then Template(Pairplot)
    else if tag == "time_analysis" then Template(TimeAnalysis)
    else if tag == "custom" then CodeCustom(query)
    else Literal("print(\"Unknown tool: " + tag + "\")")
  }

  // ---------------------------------------------------------------------------
  // Key findings: `_extract_findings`

  /** The markers a finding line carries: a warning sign, a red circle, a check mark, or one of three words. */
  const Markers: seq<string> := ["\U{26A0}", "\U{1F534}", "\U{2705}", "outlier", "skew", "correlation"]

  const MaxFindings: nat := 5

  /** A stripped line is a finding when it carries a marker and is longer than 10 and shorter than 200 characters. */
  predicate IsFinding(line: string) {
    AnyIn(Markers, line) && 10 < |line| < 200
  }

  /** The stripped lines that are findings, in the order of the lines. */
  function FindingLines(lines: seq<string>): seq<string>
    decreases |lines|
  {
    if |lines| == 0 then []
    else
      var found := FindingLines(lines[..|lines| - 1]);
      var line := Strip(lines[|lines| - 1]);
      if IsFinding(line) then found + [line] else found
  }

  /** Which lines, once stripped, are findings. */
  function FindingFlags(lines: seq<string>): (flags: seq<bool>)
    ensures |flags| == |lines| && forall k :: 0 <= k < |lines| ==> flags[k] == IsFinding(Strip(lines[k]))
  {
    seq(|lines|, k requires 0 <= k < |lines| => IsFinding(Strip(lines[k])))
  }

  /** The positions where a flag is set, in increasing order, and all of them. */
  function Positions(flags: seq<bool>): (ps: seq<nat>)
    ensures forall j :: 0 <= j < |ps| ==> ps[j] < |flags| && flags[ps[j]]
    ensures forall i, j :: 0 <= i < j < |ps| ==> ps[i] < ps[j]
    ensures forall k :: 0 <= k < |flags| && flags[k] ==> k in ps
    decreases |flags|
  {
    if |flags| == 0 then []
    else
      var n := |flags| - 1;
      var ps := Positions(flags[..n]);
      assert forall j :: 0 <= j < |ps| ==> flags[ps[j]] == flags[..n][ps[j]];
      assert forall k :: 0 <= k < n ==> flags[k] == flags[..n][k];
      if flags[n] then
        var r := ps + [n];
        assert forall j :: 0 <= j < |ps| ==> r[j] == ps[j];
        r
      else ps
  }

  /** The positions of the lines whose stripped form is a finding. */
  function FindingPositions(lines: seq<string>): seq<nat> {
    Positions(FindingFlags(lines))
  }

  lemma PositionsSnoc(flags: seq<bool>)
    requires |flags| > 0
    ensures var n := |flags| - 1;
      Positions(flags) == Positions(flags[..n]) + (if flags[n] then [n] else [])
  {
  }

  lemma FindingFlagsPrefix(lines: seq<string>)
    requires |lines| > 0
    ensures var n := |lines| - 1;
      FindingFlags(lines[..n]) == FindingFlags(lines)[..n] && FindingFlags(lines)[n] == IsFinding(Strip(lines[n]))
  {
  }

  /** The elements of `xs` whose flag is set, in order. */
  function Select(xs: seq<string>, flags: seq<bool>): seq<string>
    requires |xs| == |flags|
    decreases |xs|
  {
    if |xs| == 0 then []
    else
      var n := |xs| - 1;
      Select(xs[..n], flags[..n]) + (if flags[n] then [xs[n]] else [])
  }

  /** The selected elements are those at the positions of the set flags. */
  lemma {:induction false} SelectAtPositions(xs: seq<string>, flags: seq<bool>)
    requires |xs| == |flags|
    ensures |Select(xs, flags)| == |Positions(flags)|
    ensures forall j :: 0 <= j < |Select(xs, flags)| ==> Select(xs, flags)[j] == xs[Positions(flags)[j]]
    decreases |xs|
  {
    if |xs| > 0 {
      var n := |xs| - 1;
      SelectAtPositions(xs[..n], flags[..n]);
      PositionsSnoc(flags);
      var sel, ps := Select(xs[..n], flags[..n]), Positions(flags[..n]);
      forall j | 0 <= j < |sel| ensures xs[ps[j]] == xs[..n][ps[j]] {
      }
    }
  }

  function StrippedLines(lines: seq<string>): (r: seq<string>)
    ensures |r| == |lines| && forall k :: 0 <= k < |lines| ==> r[k] == Strip(lines[k])
  {
    seq(|lines|, k requires 0 <= k < |lines| => Strip(lines[k]))
  }

  lemma {:induction false} FindingLinesSelect(lines: seq<string>)
    ensures FindingLines(lines) == Select(StrippedLines(lines), FindingFlags(lines))
    decreases |lines|
  {
    if |lines| > 0 {
      var n := |lines| - 1;
      FindingLinesSelect(lines[..n]);
      FindingFlagsPrefix(lines);
      assert StrippedLines(lines[..n]) == StrippedLines(lines)[..n];
    }
  }

  /** The findings are exactly the stripped lines at those positions. */
  lemma FindingLinesAtPositions(lines: seq<string>)
    ensures |FindingLines(lines)| == |FindingPositions(lines)|
    ensures forall j :: 0 <= j < |FindingLines(lines)| ==>
      FindingLines(lines)[j] == Strip(lines[FindingPositions(lines)[j]])
  {
    FindingLinesSelect(lines);
    SelectAtPositions(StrippedLines(lines), FindingFlags(lines));
  }

  /** `_extract_findings` as a value: the first five finding lines of the output. */
  function Findings(stdout: string): (r: seq<string>)
    ensures |r| <= MaxFindings
  {
    var found := FindingLines(Split(stdout, '\n'));
    found[..if |found| <= MaxFindings then |found| else MaxFindings]
  }

  /** Every collected line is a stripped line at its position, and a finding. */
  lemma FindingLinesSpec(lines: seq<string>)
    ensures var ps, found := FindingPositions(lines), FindingLines(lines);
      && |found| == |ps|
      && (forall j :: 0 <= j < |found| ==> ps[j] < |lines| && found[j] == Strip(lines[ps[j]]) && IsFinding(found[j]))
  {
    FindingLinesAtPositions(lines);
    var ps, found := FindingPositions(lines), FindingLines(lines);
    assert forall j :: 0 <= j < |found| ==> found[j] == Strip(lines[ps[j]]);
  }

  /** Finding positions are in output order. */
  lemma FindingPositionsOrdered(lines: seq<string>)
    ensures var ps := FindingPositions(lines); forall i, j :: 0 <= i < j < |ps| ==> ps[i] < ps[j]
  {
  }

  /** The first five finding lines, in terms of their positions. */
  lemma FirstFindingsSpec(lines: seq<string>)
    ensures var ps, found := FindingPositions(lines), FindingLines(lines);
      var r := found[..if |found| <= MaxFindings then |found| else MaxFindings];
      && |r| == (if |ps| <= MaxFindings then |ps| else MaxFindings)
      && (forall j :: 0 <= j < |r| ==> ps[j] < |lines| && r[j] == Strip(lines[ps[j]]) && IsFinding(r[j]))
  {
    FindingLinesSpec(lines);
  }

  /**
   * Each extracted finding is a stripped output line that is a finding; they
   * come in output order, and fewer than five only when there are no more.
   */
  lemma FindingsSpec(stdout: string, lines: seq<string>)
    requires lines == Split(stdout, '\n')
    ensures var ps := FindingPositions(lines);
      var r := Findings(stdout);
      && |r| == (if |ps| <= MaxFindings then |ps| else MaxFindings)
      && (forall j :: 0 <= j < |r| ==> ps[j] < |lines| && r[j] == Strip(lines[ps[j]]) && IsFinding(r[j]))
      && (forall i, j :: 0 <= i < j < |r| ==> ps[i] < ps[j])
  {
    FirstFindingsSpec(lines);
    FindingPositionsOrdered(lines);
  }

  method ExtractFindings(stdout: string) returns (findings: seq<string>)
    ensures findings == Findings(stdout)
  {
    var lines := Split(stdout, '\n');
    var found: seq<string> := [];
    for i := 0 to |lines|
      invariant found == FindingLines(lines[..i])
    {
      assert lines[..i + 1][..i] == lines[..i];
      var line := Strip(lines[i]);
      if IsFinding(line) {
        found := found + [line];
      }
    }
    assert lines[..|lines|] == lines;
    findings := found[..if |found| <= MaxFindings then |found| else MaxFindings];
  }

  // ---------------------------------------------------------------------------
  // The automatic analysis plan: `run_auto_eda`

  /** The position of a tool in the fixed order of the automatic plan. */
  function PlanRank(t: Tool): nat {
    match t
    case Overview => 0
    case Describe => 1
    case MissingAnalysis => 2
    case Distributions => 3
    case Correlations => 4
    case ValueCounts => 5
    case Outliers => 6
    case _ => 7
  }

  /**
   * The tools `run_auto_eda` runs for a dataset with or without missing values
   * and with the given numbers of numeric and of object columns.
   */
  function AutoEdaPlan(hasNulls: bool, numeric: nat, objects: nat): seq<Tool> {
    [Overview, Describe]
    + (if hasNulls then [MissingAnalysis] else [])
    + (if numeric > 0 then [Distributions] else [])
    + (if numeric >= 2 then [Correlations] else [])
    + (if objects > 0 then [ValueCounts] else [])
    + (if numeric > 0 then [Outliers] else [])
  }

  /** Overview and describe always come first, then at most five more tools. */
  lemma AutoEdaPlanLength(hasNulls: bool, numeric: nat, objects: nat)
    ensures var plan := AutoEdaPlan(hasNulls, numeric, objects);
      2 <= |plan| <= 7 && plan[0] == Overview && plan[1] == Describe
  {
  }

  /** Which tools run: each optional one exactly when the dataset calls for it, and no others. */
  lemma AutoEdaPlanMembers(hasNulls: bool, numeric: nat, objects: nat, t: Tool)
    ensures t in AutoEdaPlan(hasNulls, numeric, objects) <==>
      || t == Overview || t == Describe
      || (t == MissingAnalysis && hasNulls)
      || (t == Distributions && numeric > 0)
      || (t == Correlations && numeric >= 2)
      || (t == ValueCounts && objects > 0)
      || (t == Outliers && numeric > 0)
  {
  }

  /** The tools run in one fixed order, none twice. */
  lemma AutoEdaPlanOrder(hasNulls: bool, numeric: nat, objects: nat)
    ensures var plan := AutoEdaPlan(hasNulls, numeric, objects);
      forall i, j :: 0 <= i < j < |plan| ==> PlanRank(plan[i]) < PlanRank(plan[j])
  {
  }

  // ---------------------------------------------------------------------------
  // The context for the language model: `get_context_for_llm`

  /** The schema section, when there is a schema, then the compressed history, joined by line breaks. */
  function ContextText(schemaText: Option<string>, historyText: string): (r: string)
    ensures schemaText.None? ==> r == historyText
    ensures schemaText.Some? ==> r == "DATASET SCHEMA:\n" + schemaText.value + "\n\n" + historyText
  {
    var parts := (if schemaText.Some? then ["DATASET SCHEMA:", schemaText.value, ""] else []) + [historyText];
    if schemaText.Some? then
      assert parts[1..][1..][1..] == [historyText];
      assert Join(parts[1..][1..], "\n") == "" + "\n" + historyText;
      assert Join(parts[1..], "\n") == schemaText.value + "\n" + ("" + "\n" + historyText);
      Join(parts, "\n")
    else
      Join(parts, "\n")
  }

  // ---------------------------------------------------------------------------
  // The agent

  /** What the code executor reports for one run. */
  datatype ExecResult = ExecResult(success: bool, stdout: string, chartPath: string)

  /** What lies outside the model, as functions of what the agent hands over. */
  datatype Environment = Environment(
    execute: string -> ExecResult,             // the code executor, run on the loaded dataset
    summarize: ExecResult -> string,           // the executor's `get_result_summary`
    remote: string -> ScaleDown.RemoteReply,   // the compression service's answer for a text
    template: Tool -> string,                  // the body of each tool's code template
    generic: string -> string,                 // the generic custom-analysis template around a query
    now: string)                               // the timestamp new steps get

  /** The text of generated code. */
  function CodeText(env: Environment, code: Code): string {
    match code
    case Template(t) => env.template(t)
    case Generic(q) => env.generic(q)
    case Literal(text) => text
  }

  /** The facts about a loaded dataset that the agent consults, as pandas computes them. */
  datatype Dataset = Dataset(
    rows: nat, memoryHundredths: nat, columns: seq<Schema.RawColumn>,
    hasNulls: bool, numericColumns: nat, objectColumns: nat)

  /** The result dict of one analysis, or the error entry of an automatic run without a dataset. */
  datatype AnalysisResult =
    | Analysis(tool: string, success: bool, stdout: string, chartPath: string, code: string, tokensUsed: nat)
    | NoDataset(error: string)

  /** What one `_run_analysis` call produces: its step, findings, clamped saving, token counts and result dict. */
  datatype Run = Run(
    step: History.AnalysisStep, findings: seq<string>, saved: nat,
    inputTokens: nat, outputTokens: nat, result: AnalysisResult)

  /**
   * The run of `tag` on `query`: the generated code is executed, the executor's
   * summary compressed, and the compressed summary recorded as the step, with
   * the compressed token count as its cost. The saving is clamped at zero, and
   * findings are extracted only when the run succeeded and printed something.
   */
  function RunOf(tag: string, query: string, env: Environment, apiKey: string): (r: Run)
    ensures r.step.action == tag && r.step.description == StepDescription(tag, query)
    ensures r.step.tokensUsed == r.outputTokens && r.step.timestamp == env.now
    ensures r.result.Analysis? && r.result.tool == tag && r.result.tokensUsed == r.outputTokens
    ensures r.saved == (if r.inputTokens >= r.outputTokens then r.inputTokens - r.outputTokens else 0)
  {
    var code := CodeText(env, GenerateCode(tag, query));
    var exec := env.execute(code);
    var summary := env.summarize(exec);
    var c := ScaleDown.CompressOutcome(apiKey, summary, env.remote(summary));
    Run(History.AnalysisStep(tag, StepDescription(tag, query), c.compressedText, code, exec.chartPath, c.outputTokens, env.now),
        if exec.success && exec.stdout != "" then Findings(exec.stdout) else [],
        if c.inputTokens >= c.outputTokens then c.inputTokens - c.outputTokens else 0,
        c.inputTokens, c.outputTokens,
        Analysis(tag, exec.success, exec.stdout, exec.chartPath, code, c.outputTokens))
  }

  /** The agent's tracked state: the history's steps, findings and totals, and the client's counters. */
  datatype Snapshot = Snapshot(
    steps: seq<History.AnalysisStep>, findings: seq<string>, used: nat, saved: nat,
    requests: nat, inputTokens: nat, outputTokens: nat)

  /** The state after one run: its step and findings appended, its tokens added to every total. */
  function After(s: Snapshot, r: Run): Snapshot {
    Snapshot(s.steps + [r.step], s.findings + r.findings, s.used + r.outputTokens, s.saved + r.saved,
             s.requests + 1, s.inputTokens + r.inputTokens, s.outputTokens + r.outputTokens)
  }

  lemma AfterFields(s: Snapshot, r: Run, t: Snapshot)
    requires t.steps == s.steps + [r.step] && t.findings == s.findings + r.findings
    requires t.used == s.used + r.outputTokens && t.saved == s.saved + r.saved && t.requests == s.requests + 1
    requires t.inputTokens == s.inputTokens + r.inputTokens && t.outputTokens == s.outputTokens + r.outputTokens
    ensures t == After(s, r)
  {
  }

  /** The run assembled from the executor's report and the compression's outcome is the run of the tag. */
  lemma RunOfParts(tag: string, query: string, env: Environment, apiKey: string, code: string,
                   exec: ExecResult, c: ScaleDown.CompressResult)
    requires code == CodeText(env, GenerateCode(tag, query)) && exec == env.execute(code)
    requires c == ScaleDown.CompressOutcome(apiKey, env.summarize(exec), env.remote(env.summarize(exec)))
    ensures RunOf(tag, query, env, apiKey) == Run(
      History.AnalysisStep(tag, StepDescription(tag, query), c.compressedText, code, exec.chartPath, c.outputTokens, env.now),
      if exec.success && exec.stdout != "" then Findings(exec.stdout) else [],
      if c.inputTokens >= c.outputTokens then c.inputTokens - c.outputTokens else 0,
      c.inputTokens, c.outputTokens,
      Analysis(tag, exec.success, exec.stdout, exec.chartPath, code, c.outputTokens))
  {
  }

  /** The run of each tool of the automatic plan: its template, with no query. */
  function ToolRun(env: Environment, apiKey: string): Tool -> Run {
    t => RunOf(Tag(t), "", env, apiKey)
  }

  /** The state after running the tools `ran` in order, each as `run` says. */
  function PlanState(ran: seq<Tool>, run: Tool -> Run, s: Snapshot): Snapshot
    decreases |ran|
  {
    if ran == [] then s
    else After(PlanState(ran[..|ran| - 1], run, s), run(ran[|ran| - 1]))
  }

  /** The result dicts of running the tools `ran` in order. */
  function PlanResults(ran: seq<Tool>, run: Tool -> Run): seq<AnalysisResult>
    decreases |ran|
  {
    if ran == [] then []
    else PlanResults(ran[..|ran| - 1], run) + [run(ran[|ran| - 1]).result]
  }

  lemma PlanSnoc(ran: seq<Tool>, t: Tool, run: Tool -> Run, s: Snapshot)
    ensures PlanState(ran + [t], run, s) == After(PlanState(ran, run, s), run(t))
    ensures PlanResults(ran + [t], run) == PlanResults(ran, run) + [run(t).result]
  {
    assert (ran + [t])[..|ran|] == ran;
  }

  /** One result dict per tool, each the result of that tool's run, in the plan's order. */
  lemma {:induction false} PlanResultsSpec(ran: seq<Tool>, run: Tool -> Run)
    ensures var rs := PlanResults(ran, run);
      |rs| == |ran| && forall k :: 0 <= k < |ran| ==> rs[k] == run(ran[k]).result
    decreases |ran|
  {
    if ran != [] {
      var n := |ran| - 1;
      PlanResultsSpec(ran[..n], run);
      forall k | 0 <= k < n ensures ran[..n][k] == ran[k] { }
    }
  }

  /**
   * Running a plan appends one step per tool, in the plan's order, keeps the
   * earlier steps and findings, counts one request per tool, adds to the used
   * total exactly what the client counted as output, and never lowers the
   * saved total or the input total.
   */
  lemma {:induction false} PlanStateSpec(ran: seq<Tool>, run: Tool -> Run, s: Snapshot)
    ensures var p := PlanState(ran, run, s);
      && |p.steps| == |s.steps| + |ran| && p.steps[..|s.steps|] == s.steps
      && (forall k :: 0 <= k < |ran| ==> p.steps[|s.steps| + k] == run(ran[k]).step)
      && |s.findings| <= |p.findings| && p.findings[..|s.findings|] == s.findings
      && p.requests == s.requests + |ran|
      && p.used - s.used == p.outputTokens - s.outputTokens
      && s.saved <= p.saved && s.inputTokens <= p.inputTokens
    decreases |ran|
  {
    if ran != [] {
      var n := |ran| - 1;
      PlanStateSpec(ran[..n], run, s);
      var q := PlanState(ran[..n], run, s);
      var p := After(q, run(ran[n]));
      assert p.steps[..|q.steps|] == q.steps;
      assert p.steps[..|s.steps|] == q.steps[..|s.steps|];
      assert p.findings[..|q.findings|] == q.findings;
      assert p.findings[..|s.findings|] == q.findings[..|s.findings|];
      forall k | 0 <= k < |ran| ensures p.steps[|s.steps| + k] == run(ran[k]).step {
        if k < n { assert ran[..n][k] == ran[k]; }
      }
    }
  }

  /** Under the plan's runs, the k-th new step carries the k-th tool's tag, and so does the k-th result. */
  lemma PlanTags(ran: seq<Tool>, env: Environment, apiKey: string, s: Snapshot)
    ensures var p, rs := PlanState(ran, ToolRun(env, apiKey), s), PlanResults(ran, ToolRun(env, apiKey));
      && |p.steps| == |s.steps| + |ran| && |rs| == |ran|
      && forall k :: 0 <= k < |ran| ==>
           p.steps[|s.steps| + k].action == Tag(ran[k]) && rs[k].Analysis? && rs[k].tool == Tag(ran[k])
  {
    var run := ToolRun(env, apiKey);
    PlanStateSpec(ran, run, s);
    PlanResultsSpec(ran, run);
    forall k | 0 <= k < |ran|
      ensures run(ran[k]).step.action == Tag(ran[k]) && run(ran[k]).result.Analysis? && run(ran[k]).result.tool == Tag(ran[k])
    {
      var r := RunOf(Tag(ran[k]), "", env, apiKey);
      assert run(ran[k]) == r;
    }
  }

  class EdaAgent {
    const history: History.HistoryManager
    const client: ScaleDown.ScaleDownClient
    var current: Option<Dataset>
    var currentSchema: Option<Schema.CompressedSchema>
    var datasetName: string

    constructor (apiKey: string)
      ensures fresh(history) && fresh(client)
      ensures history.maxDetailedSteps == History.DefaultMaxDetailedSteps
      ensures history.maxSummarySteps == History.DefaultMaxSummarySteps
      ensures history.steps == [] && history.keyFindings == []
      ensures history.totalTokensUsed == 0 && history.totalTokensSaved == 0
      ensures client.apiKey == apiKey
      ensures client.totalRequests == 0 && client.totalInputTokens == 0 && client.totalOutputTokens == 0
      ensures current == None && currentSchema == None && datasetName == "dataset"
    {
      history := new History.HistoryManager(History.DefaultMaxDetailedSteps, History.DefaultMaxSummarySteps);
      client := new ScaleDown.ScaleDownClient(apiKey);
      current := None;
      currentSchema := None;
      datasetName := "dataset";
    }

    /** The tracked state of the agent's history and client. */
    function State(): Snapshot
      reads this, history, client
    {
      Snapshot(history.steps, history.keyFindings, history.totalTokensUsed, history.totalTokensSaved,
               client.totalRequests, client.totalInputTokens, client.totalOutputTokens)
    }

    /** `load_dataset`: the dataset and its compressed schema replace the old ones, and the history starts afresh. */
    method LoadDataset(ds: Dataset, name: string) returns (schema: Schema.CompressedSchema)
      modifies this, history
      ensures current == Some(ds) && datasetName == name && currentSchema == Some(schema)
      ensures history.steps == [] && history.keyFindings == []
      ensures history.totalTokensUsed == 0 && history.totalTokensSaved == 0
      ensures schema.info.name == name && schema.info.rows == ds.rows && schema.info.cols == |ds.columns|
      ensures schema.info.memoryHundredths == ds.memoryHundredths
      ensures |schema.info.columns| == |ds.columns|
      ensures forall k :: 0 <= k < |ds.columns| ==>
        schema.info.columns[k] == Schema.CompressColumn(ds.columns[k], Schema.DefaultMaxUniqueDisplay)
      ensures schema.compactString == Join(Schema.CompactLines(schema.info), "\n")
      ensures schema.tokenEstimate == Schema.EstimateTokens(schema.compactString)
    {
      current := Some(ds);
      datasetName := name;
      history.Clear();
      schema := Schema.CompressSchema(name, ds.rows, ds.memoryHundredths, ds.columns, Schema.DefaultMaxUniqueDisplay);
      currentSchema := Some(schema);
    }

    /**
     * The effect of one `_run_analysis` call: the run of `tag` on `query` is
     * recorded in the history and the client, and its result dict returned.
     */
    twostate predicate AnalysisEffect(tag: string, query: string, env: Environment, result: AnalysisResult)
      reads this, history, client
    {
      var r := RunOf(tag, query, env, client.apiKey);
      State() == After(old(State()), r) && result == r.result
    }

    /** `for f in findings: add_finding(f)`. */
    method RecordFindings(findings: seq<string>)
      modifies history
      ensures history.keyFindings == old(history.keyFindings) + findings
      ensures history.steps == old(history.steps) && history.totalTokensUsed == old(history.totalTokensUsed)
      ensures history.totalTokensSaved == old(history.totalTokensSaved)
    {
      for i := 0 to |findings|
        invariant history.keyFindings == old(history.keyFindings) + findings[..i]
        invariant history.steps == old(history.steps) && history.totalTokensUsed == old(history.totalTokensUsed)
        invariant history.totalTokensSaved == old(history.totalTokensSaved)
      {
        history.AddFinding(findings[i]);
        assert findings[..i + 1] == findings[..i] + [findings[i]];
      }
      assert findings[..|findings|] == findings;
    }

    /**
     * The history side of `_run_analysis`: the clamped saving is added, the step
     * recorded, and the output's findings kept when the run succeeded and
     * printed something.
     */
    method RecordAnalysis(step: History.AnalysisStep, saved: int, exec: ExecResult)
      modifies history
      ensures history.totalTokensSaved == old(history.totalTokensSaved) + (if saved >= 0 then saved else 0)
      ensures history.steps == old(history.steps) + [step]
      ensures history.totalTokensUsed == old(history.totalTokensUsed) + step.tokensUsed
      ensures history.keyFindings == old(history.keyFindings)
        + (if exec.success && exec.stdout != "" then Findings(exec.stdout) else [])
    {
      history.AddTokensSaved(if saved >= 0 then saved else 0);
      history.AddStep(step);
      if exec.success && exec.stdout != "" {
        var findings := ExtractFindings(exec.stdout);
        RecordFindings(findings);
      }
    }

    /** `_run_analysis`. */
    method RunAnalysis(tag: string, query: string, env: Environment) returns (result: AnalysisResult)
      modifies history, client
      ensures AnalysisEffect(tag, query, env, result)
      ensures |history.steps| == |old(history.steps)| + 1 && history.steps[..|old(history.steps)|] == old(history.steps)
      ensures history.steps[|old(history.steps)|].action == tag
      ensures result.Analysis? && result.tool == tag
    {
      ghost var s0 := State();
      var code := CodeText(env, GenerateCode(tag, query));
      var exec := env.execute(code);
      var summary := env.summarize(exec);
      var compressed := client.Compress(summary, env.remote(summary));
      var step := History.AnalysisStep(tag, StepDescription(tag, query), compressed.compressedText,
                                       code, exec.chartPath, compressed.outputTokens, env.now);
      RecordAnalysis(step, compressed.inputTokens - compressed.outputTokens, exec);
      result := Analysis(tag, exec.success, exec.stdout, exec.chartPath, code, compressed.outputTokens);
      RunOfParts(tag, query, env, client.apiKey, code, exec, compressed);
      ghost var r := RunOf(tag, query, env, client.apiKey);
      AfterFields(s0, r, State());
      assert history.steps[..|old(history.steps)|] == old(history.steps);
    }

    /** `run_custom_query`: an analysis under the custom tag. */
    method RunCustomQuery(query: string, env: Environment) returns (result: AnalysisResult)
      modifies history, client
      ensures AnalysisEffect(Tag(Custom), query, env, result)
    {
      result := RunAnalysis(Tag(Custom), query, env);
    }

    /** From the state `before`, the tools `ran` have been run in order, and `results` are their result dicts. */
    ghost predicate RanTools(results: seq<AnalysisResult>, ran: seq<Tool>, before: Snapshot, env: Environment)
      reads this, history, client
    {
      var run := ToolRun(env, client.apiKey);
      State() == PlanState(ran, run, before) && results == PlanResults(ran, run)
    }

    method RunTool(t: Tool, env: Environment, results: seq<AnalysisResult>, ghost ran: seq<Tool>, ghost before: Snapshot)
      returns (more: seq<AnalysisResult>)
      requires RanTools(results, ran, before, env)
      modifies history, client
      ensures RanTools(more, ran + [t], before, env)
    {
      var r := RunAnalysis(Tag(t), "", env);
      more := results + [r];
      PlanSnoc(ran, t, ToolRun(env, client.apiKey), before);
      assert ToolRun(env, client.apiKey)(t) == RunOf(Tag(t), "", env, client.apiKey);
    }

    /** One guarded step of `run_auto_eda`: the tool runs only when the dataset calls for it. */
    method RunToolIf(cond: bool, t: Tool, env: Environment, results: seq<AnalysisResult>,
                     ghost ran: seq<Tool>, ghost before: Snapshot)
      returns (more: seq<AnalysisResult>)
      requires RanTools(results, ran, before, env)
      modifies history, client
      ensures RanTools(more, ran + (if cond then [t] else []), before, env)
    {
      if cond {
        more := RunTool(t, env, results, ran, before);
      } else {
        more := results;
        assert ran + [] == ran;
      }
    }

    /** The guarded analyses of `run_auto_eda`, each run only when the dataset calls for it. */
    method RunOptional(ds: Dataset, env: Environment, results: seq<AnalysisResult>, ghost ran: seq<Tool>, ghost before: Snapshot)
      returns (more: seq<AnalysisResult>)
      requires RanTools(results, ran, before, env)
      modifies history, client
      ensures RanTools(more, ran
        + (if ds.hasNulls then [MissingAnalysis] else [])
        + (if ds.numericColumns > 0 then [Distributions] else [])
        + (if ds.numericColumns >= 2 then [Correlations] else [])
        + (if ds.objectColumns > 0 then [ValueCounts] else [])
        + (if ds.numericColumns > 0 then [Outliers] else []), before, env)
    {
      ghost var done := ran;
      more := RunToolIf(ds.hasNulls, MissingAnalysis, env, results, done, before);
      done := done + (if ds.hasNulls then [MissingAnalysis] else []);
      more := RunToolIf(ds.numericColumns > 0, Distributions, env, more, done, before);
      done := done + (if ds.numericColumns > 0 then [Distributions] else []);
      more := RunToolIf(ds.numericColumns >= 2, Correlations, env, more, done, before);
      done := done + (if ds.numericColumns >= 2 then [Correlations] else []);
      more := RunToolIf(ds.objectColumns > 0, ValueCounts, env, more, done, before);
      done := done + (if ds.objectColumns > 0 then [ValueCounts] else []);
      more := RunToolIf(ds.numericColumns > 0, Outliers, env, more, done, before);
    }

    /** The two analyses `run_auto_eda` always runs first: the overview, then the descriptive statistics. */
    method RunFixed(env: Environment, results: seq<AnalysisResult>, ghost ran: seq<Tool>, ghost before: Snapshot)
      returns (more: seq<AnalysisResult>)
      requires RanTools(results, ran, before, env)
      modifies history, client
      ensures RanTools(more, ran + [Overview] + [Describe], before, env)
    {
      more := RunTool(Overview, env, results, ran, before);
      more := RunTool(Describe, env, more, ran + [Overview], before);
    }

    /** The analyses `run_auto_eda` runs for a loaded dataset, in the order of the plan. */
    method RunPlan(ds: Dataset, env: Environment) returns (results: seq<AnalysisResult>)
      modifies history, client
      ensures RanTools(results, AutoEdaPlan(ds.hasNulls, ds.numericColumns, ds.objectColumns), old(State()), env)
    {
      ghost var before := State();
      ghost var none: seq<Tool> := [];
      results := RunFixed(env, [], none, before);
      assert none + [Overview] + [Describe] == [Overview, Describe];
      results := RunOptional(ds, env, results, [Overview, Describe], before);
    }

    /**
     * `run_auto_eda`: without a dataset, one error entry and nothing else
     * changes; with one, the tools of the automatic plan run in its order.
     */
    method RunAutoEda(env: Environment) returns (results: seq<AnalysisResult>)
      modifies history, client
      ensures current.None? ==> results == [NoDataset("No dataset loaded")] && State() == old(State())
      ensures current.Some? ==>
        var plan := AutoEdaPlan(current.value.hasNulls, current.value.numericColumns, current.value.objectColumns);
        && State() == PlanState(plan, ToolRun(env, client.apiKey), old(State()))
        && results == PlanResults(plan, ToolRun(env, client.apiKey))
    {
      if current.None? {
        return [NoDataset("No dataset loaded")];
      }
      results := RunPlan(current.value, env);
    }

    /** `get_context_for_llm`: the schema section and the compressed history, passed through the client once more. */
    method GetContextForLlm(env: Environment) returns (text: string)
      modifies client
      ensures var full := ContextText(
          if currentSchema.Some? then Some(currentSchema.value.compactString) else None,
          History.CompressedHistory(history.steps, history.maxDetailedSteps, history.maxSummarySteps,
                                    history.keyFindings, history.totalTokensUsed, history.totalTokensSaved));
        var c := ScaleDown.CompressOutcome(client.apiKey, full, env.remote(full));
        && text == c.compressedText
        && client.totalInputTokens == old(client.totalInputTokens) + c.inputTokens
        && client.totalOutputTokens == old(client.totalOutputTokens) + c.outputTokens
      ensures client.totalRequests == old(client.totalRequests) + 1
    {
      var historyText := history.GetCompressedHistory();
      var full := ContextText(if currentSchema.Some? then Some(currentSchema.value.compactString) else None, historyText);
      var compressed := client.Compress(full, env.remote(full));
      text := compressed.compressedText;
    }
  }
}

/**
 * The analysis history manager: an append-only log of analysis steps, a list of
 * key findings and two token counters, rendered on demand as a three-tier
 * compressed text (EARLIER counts per action, RECENT one-liners, LATEST details).
 */
module History {
  import opened Text
  import opened Dicts
  import Json

  /** One analysis step as recorded by the agent; `timestamp` is supplied by the caller's clock. */
  datatype AnalysisStep = AnalysisStep(
    action: string,
    description: string,
    resultSummary: string,
    code: string,
    chartPath: string,
    tokensUsed: nat,
    timestamp: string)

  /** A one-line result is cut after this many characters and marked with "...". */
  const SummaryLimit: nat := 150
  /** A LATEST result line shows at most this many characters. */
  const DetailLimit: nat := 200
  /** Only this many of the most recent findings are rendered. */
  const FindingsShown: nat := 10
  const DefaultMaxDetailedSteps: nat := 5
  const DefaultMaxSummarySteps: nat := 20

  const Arrow := "\U{2192}"
  const Bullet := "\U{2022}"
  const ChartMark := "\U{1F4CA}"
  const NoHistory := "No analysis performed yet."

  function Max(a: int, b: int): int {
    if a >= b then a else b
  }

  function Min(a: int, b: int): int {
    if a <= b then a else b
  }

  /** Python's `xs[-n:]`: the last `n` elements, or all of them when there are fewer. */
  function LastN<T>(xs: seq<T>, n: nat): (r: seq<T>)
    ensures |r| == Min(|xs|, n)
    ensures r == xs[|xs| - |r|..]
  {
    if |xs| <= n then xs else xs[|xs| - n..]
  }

  // ---------------------------------------------------------------------------
  // AnalysisStep.to_compact and to_dict

  /** `result_summary[:150] + "..."` when it is longer than 150 characters. */
  function TruncateSummary(s: string): (r: string)
    ensures |s| <= SummaryLimit ==> r == s
    ensures |s| > SummaryLimit ==> |r| == SummaryLimit + 3 && r == s[..SummaryLimit] + "..."
  {
    if |s| > SummaryLimit then s[..SummaryLimit] + "..." else s
  }

  /** The pieces `to_compact` joins with " | ". */
  function CompactParts(step: AnalysisStep): (parts: seq<string>)
    ensures |parts| == 2 + (if step.resultSummary != "" then 1 else 0) + (if step.chartPath != "" then 1 else 0)
    ensures parts[0] == "[" + step.action + "]" && parts[1] == step.description
    ensures step.resultSummary != "" ==> parts[2] == Arrow + " " + TruncateSummary(step.resultSummary)
    ensures step.chartPath != "" ==> parts[|parts| - 1] == ChartMark
  {
    ["[" + step.action + "]", step.description]
    + (if step.resultSummary != "" then [Arrow + " " + TruncateSummary(step.resultSummary)] else [])
    + (if step.chartPath != "" then [ChartMark] else [])
  }

  /** `AnalysisStep.to_compact`. */
  function ToCompact(step: AnalysisStep): string {
    Join(CompactParts(step), " | ")
  }

  /** `AnalysisStep.to_dict`: the seven fields in declaration order. */
  function ToDict(step: AnalysisStep): (o: Json.Object)
    ensures |o| == 7
    ensures forall k :: 0 <= k < 7 ==> o[k].0 == DictKeys[k]
  {
    [("action", Json.Str(step.action)),
     ("description", Json.Str(step.description)),
     ("result_summary", Json.Str(step.resultSummary)),
     ("code", Json.Str(step.code)),
     ("chart_path", Json.Str(step.chartPath)),
     ("tokens_used", Json.Int(step.tokensUsed)),
     ("timestamp", Json.Str(step.timestamp))]
  }

  const DictKeys: seq<string> :=
    ["action", "description", "result_summary", "code", "chart_path", "tokens_used", "timestamp"]

  /** Looking up each key of the dict finds the field it was taken from. */
  lemma ToDictFields(step: AnalysisStep, default: Json.Value)
    ensures var o := ToDict(step);
      && Dicts.Get(o, "action", default) == Json.Str(step.action)
      && Dicts.Get(o, "description", default) == Json.Str(step.description)
      && Dicts.Get(o, "result_summary", default) == Json.Str(step.resultSummary)
      && Dicts.Get(o, "code", default) == Json.Str(step.code)
      && Dicts.Get(o, "chart_path", default) == Json.Str(step.chartPath)
      && Dicts.Get(o, "tokens_used", default) == Json.Int(step.tokensUsed)
      && Dicts.Get(o, "timestamp", default) == Json.Str(step.timestamp)
  {
    var o := ToDict(step);
    assert Dicts.Keys(o) == DictKeys;
    assert Dicts.Distinct(DictKeys);
    Dicts.GetAt(o, 0, default);
    Dicts.GetAt(o, 1, default);
    Dicts.GetAt(o, 2, default);
    Dicts.GetAt(o, 3, default);
    Dicts.GetAt(o, 4, default);
    Dicts.GetAt(o, 5, default);
    Dicts.GetAt(o, 6, default);
  }

  // ---------------------------------------------------------------------------
  // EARLIER tier: step counts per action in first-seen order

  /** `action_counts[a] = action_counts.get(a, 0) + 1`. */
  function Tally(counts: Dict<nat>, a: string): Dict<nat> {
    Put(counts, a, Get(counts, a, 0) + 1)
  }

  /** The dict `action_counts` after counting every action of `actions` in order. */
  function ActionCounts(actions: seq<string>): Dict<nat>
    decreases |actions|
  {
    if |actions| == 0 then [] else Tally(ActionCounts(actions[..|actions| - 1]), actions[|actions| - 1])
  }

  function Total(counts: Dict<nat>): nat
    decreases |counts|
  {
    if |counts| == 0 then 0 else counts[0].1 + Total(counts[1..])
  }

  lemma {:induction false} PutTotal(counts: Dict<nat>, a: string, v: nat)
    ensures Total(Put(counts, a, v)) == Total(counts) + v - Get(counts, a, 0)
    decreases |counts|
  {
    if |counts| > 0 && counts[0].0 != a {
      PutTotal(counts[1..], a, v);
      assert Put(counts, a, v) == [counts[0]] + Put(counts[1..], a, v);
    }
  }

  /**
   * The EARLIER tier lists each distinct action once, in order of first
   * appearance: the keys of the counts are exactly the deduplicated actions.
   */
  lemma {:induction false} ActionCountsKeys(actions: seq<string>)
    ensures Keys(ActionCounts(actions)) == Dedupe(actions)
    decreases |actions|
  {
    if |actions| > 0 {
      var pre, a := actions[..|actions| - 1], actions[|actions| - 1];
      ActionCountsKeys(pre);
      var c0 := ActionCounts(pre);
      var v := Get(c0, a, 0) + 1;
      assert ActionCounts(actions) == Put(c0, a, v);
      PutKeys(c0, a, v);
      DedupeMembers(pre);
      if a in pre {
        assert a in Keys(c0);
        assert Dedupe(actions) == Dedupe(pre);
      } else {
        assert a !in Keys(c0);
        assert Dedupe(actions) == Dedupe(pre) + [a];
      }
    }
  }

  /** One tally keeps every count equal to the multiplicity of its action. */
  lemma TallyCounts(c0: Dict<nat>, m: multiset<string>, a: string)
    requires Distinct(Keys(c0))
    requires forall i :: 0 <= i < |c0| ==> c0[i].1 == m[c0[i].0]
    requires a !in Keys(c0) ==> m[a] == 0
    ensures forall i :: 0 <= i < |Tally(c0, a)| ==> Tally(c0, a)[i].1 == (m + multiset{a})[Tally(c0, a)[i].0]
  {
    var v := Get(c0, a, 0) + 1;
    var c := Tally(c0, a);
    assert c == Put(c0, a, v);
    var ks := Keys(c0);
    PutKeys(c0, a, v);
    PutValues(c0, a, v);
    GetValue(c0, a, 0);
    if a in ks {
      var j := FirstIndex(ks, a);
      assert v == m[a] + 1;
      forall i | 0 <= i < |c| ensures c[i].1 == (m + multiset{a})[c[i].0] {
        assert Keys(c)[i] == ks[i];
        if c0[i].0 == a {
          assert ks[j] == ks[i];
        }
      }
    } else {
      assert v == 1;
      forall i | 0 <= i < |c| ensures c[i].1 == (m + multiset{a})[c[i].0] {
        if i < |c0| {
          assert Keys(c)[i] == ks[i];
        } else {
          assert c[i] == (a, v);
        }
      }
    }
  }

  /**
   * Each entry of the EARLIER counts holds the number of steps with that action,
   * and the counts add up to the number of steps.
   */
  lemma {:induction false} ActionCountsCounts(actions: seq<string>)
    ensures forall i :: 0 <= i < |ActionCounts(actions)| ==>
      ActionCounts(actions)[i].1 == multiset(actions)[ActionCounts(actions)[i].0]
    ensures Total(ActionCounts(actions)) == |actions|
    decreases |actions|
  {
    if |actions| > 0 {
      var pre, a := actions[..|actions| - 1], actions[|actions| - 1];
      assert actions == pre + [a];
      ActionCountsCounts(pre);
      ActionCountsStep(pre, a);
    }
  }

  /** Counting one more action keeps the counts equal to the multiplicities. */
  lemma ActionCountsStep(pre: seq<string>, a: string)
    requires forall i :: 0 <= i < |ActionCounts(pre)| ==> ActionCounts(pre)[i].1 == multiset(pre)[ActionCounts(pre)[i].0]
    requires Total(ActionCounts(pre)) == |pre|
    ensures forall i :: 0 <= i < |ActionCounts(pre + [a])| ==>
      ActionCounts(pre + [a])[i].1 == multiset(pre + [a])[ActionCounts(pre + [a])[i].0]
    ensures Total(ActionCounts(pre + [a])) == |pre| + 1
  {
    var actions := pre + [a];
    assert actions[..|actions| - 1] == pre;
    var c0 := ActionCounts(pre);
    assert ActionCounts(actions) == Tally(c0, a);
    ActionCountsKeys(pre);
    DedupeMembers(pre);
    assert a !in Keys(c0) ==> multiset(pre)[a] == 0;
    TallyCounts(c0, multiset(pre), a);
    TallyTotal(c0, a);
    assert multiset(actions) == multiset(pre) + multiset{a};
  }

  /** One tally adds one to the total count. */
  lemma TallyTotal(c0: Dict<nat>, a: string)
    ensures Total(Tally(c0, a)) == Total(c0) + 1
  {
    PutTotal(c0, a, Get(c0, a, 0) + 1);
  }

  // ---------------------------------------------------------------------------
  // Tiering

  /** How `get_compressed_history` lays out the steps. */
  datatype View =
    | NoSteps
    | Flat(all: seq<AnalysisStep>)
    | Tiered(earlier: seq<AnalysisStep>, recent: seq<AnalysisStep>, latest: seq<AnalysisStep>)

  /** The tiers exactly as the source's index arithmetic cuts them. */
  function Tiering(steps: seq<AnalysisStep>, maxDetailed: nat, maxSummary: nat): View {
    var total := |steps|;
    if total == 0 then NoSteps
    else if total <= maxDetailed then Flat(steps)
    else
      var oldCutoff := Max(0, total - maxSummary);
      var recentStart := Max(oldCutoff, total - maxSummary);
      var detailStart := total - maxDetailed;
      Tiered(steps[..oldCutoff],
             if recentStart < detailStart then steps[recentStart..detailStart] else [],
             steps[detailStart..])
  }

  /**
   * With `maxSummary >= maxDetailed` the tiers are contiguous, chronological and
   * cover the log exactly once: EARLIER is the first `max(0, total - maxSummary)`
   * steps, LATEST the last `maxDetailed`, and RECENT everything between.
   */
  lemma TieringPartitions(steps: seq<AnalysisStep>, maxDetailed: nat, maxSummary: nat)
    requires maxSummary >= maxDetailed
    ensures match Tiering(steps, maxDetailed, maxSummary)
      case NoSteps => steps == []
      case Flat(all) => all == steps && 0 < |steps| <= maxDetailed
      case Tiered(earlier, recent, latest) =>
        && earlier + recent + latest == steps
        && |earlier| == Max(0, |steps| - maxSummary)
        && |recent| == Min(|steps|, maxSummary) - maxDetailed
        && |latest| == maxDetailed
        && |steps| > maxDetailed
  {
    var total := |steps|;
    if total > maxDetailed {
      var oldCutoff := Max(0, total - maxSummary);
      var detailStart := total - maxDetailed;
      assert oldCutoff <= detailStart;
      assert steps[..oldCutoff] + steps[oldCutoff..detailStart] + steps[detailStart..] == steps;
    }
  }

  /** With the defaults 5 and 20, a log of 27 steps renders 7 EARLIER, 15 RECENT and 5 LATEST steps. */
  lemma DefaultTiersOf27(steps: seq<AnalysisStep>)
    requires |steps| == 27
    ensures var v := Tiering(steps, DefaultMaxDetailedSteps, DefaultMaxSummarySteps);
      v.Tiered? && |v.earlier| == 7 && |v.recent| == 15 && |v.latest| == 5
  {
    TieringPartitions(steps, DefaultMaxDetailedSteps, DefaultMaxSummarySteps);
  }

  /**
   * When `maxSummary < maxDetailed` and the log is longer than `maxDetailed`,
   * the first step of LATEST also shows in EARLIER, and the tiers together
   * hold more steps than the log.
   */
  lemma SmallSummaryRepeatsSteps(steps: seq<AnalysisStep>, maxDetailed: nat, maxSummary: nat)
    requires maxSummary < maxDetailed < |steps|
    ensures var v := Tiering(steps, maxDetailed, maxSummary);
      && v.Tiered? && |v.earlier| + |v.recent| + |v.latest| > |steps|
      && steps[|steps| - maxDetailed] in v.earlier && steps[|steps| - maxDetailed] in v.latest
  {
    var v := Tiering(steps, maxDetailed, maxSummary);
    var n := |steps| - maxDetailed;
    assert v.earlier[n] == steps[n] && v.latest[0] == steps[n];
  }

  // ---------------------------------------------------------------------------
  // Rendering

  function FindingLine(i: nat, finding: string): string {
    "  " + NatToString(i) + ". " + finding
  }

  /** The first `n` findings of `shown` as numbered lines. */
  function NumberedFindings(shown: seq<string>, n: nat): (lines: seq<string>)
    requires n <= |shown|
    ensures |lines| == n && forall k :: 0 <= k < n ==> lines[k] == FindingLine(k + 1, shown[k])
  {
    seq(n, k requires 0 <= k < n => FindingLine(k + 1, shown[k]))
  }

  lemma NumberedFindingsStep(shown: seq<string>, n: nat)
    requires n < |shown|
    ensures NumberedFindings(shown, n + 1) == NumberedFindings(shown, n) + [FindingLine(n + 1, shown[n])]
  {
    var a, b := NumberedFindings(shown, n + 1), NumberedFindings(shown, n) + [FindingLine(n + 1, shown[n])];
    assert |a| == |b|;
    forall k | 0 <= k <= n ensures a[k] == b[k] { }
  }

  /** The KEY FINDINGS block: the last ten findings numbered from 1, then a blank line. */
  function FindingsLines(findings: seq<string>): (lines: seq<string>)
    ensures findings == [] ==> lines == []
    ensures findings != [] ==>
      var shown := LastN(findings, FindingsShown);
      && |lines| == |shown| + 2 && lines[0] == "KEY FINDINGS:" && lines[|lines| - 1] == ""
      && forall k :: 0 <= k < |shown| ==> lines[k + 1] == FindingLine(k + 1, shown[k])
  {
    if findings == [] then []
    else
      var shown := LastN(findings, FindingsShown);
      ["KEY FINDINGS:"] + NumberedFindings(shown, |shown|) + [""]
  }

  function FlatLine(step: AnalysisStep): string {
    "  " + Bullet + " " + ToCompact(step)
  }

  function RecentLine(step: AnalysisStep): string {
    "  " + Arrow + " " + ToCompact(step)
  }

  function FlatLines(steps: seq<AnalysisStep>): seq<string> {
    ["ANALYSIS HISTORY (" + NatToString(|steps|) + " steps):"]
    + seq(|steps|, k requires 0 <= k < |steps| => FlatLine(steps[k]))
  }

  function CountPart(entry: (string, nat)): string {
    NatToString(entry.1) + "x " + entry.0
  }

  function EarlierLine(earlier: seq<AnalysisStep>): string {
    var counts := ActionCounts(seq(|earlier|, k requires 0 <= k < |earlier| => earlier[k].action));
    "EARLIER: " + NatToString(|earlier|) + " steps ("
    + Join(seq(|counts|, k requires 0 <= k < |counts| => CountPart(counts[k])), ", ") + ")"
  }

  function EarlierLines(earlier: seq<AnalysisStep>): seq<string> {
    if earlier == [] then [] else [EarlierLine(earlier), ""]
  }

  function RecentLines(recent: seq<AnalysisStep>): seq<string> {
    if recent == [] then []
    else ["RECENT STEPS:"] + seq(|recent|, k requires 0 <= k < |recent| => RecentLine(recent[k])) + [""]
  }

  /** The one to three lines of a LATEST entry. */
  function DetailLines(step: AnalysisStep): (lines: seq<string>)
    ensures |lines| == 1 + (if step.resultSummary != "" then 1 else 0) + (if step.chartPath != "" then 1 else 0)
    ensures step.resultSummary != "" ==>
      && StartsWith(lines[1], "    Result: ")
      && |lines[1]| == 12 + Min(|step.resultSummary|, DetailLimit)
      && StartsWith(step.resultSummary, lines[1][12..])
    ensures step.chartPath != "" ==> lines[|lines| - 1] == "    Chart: " + step.chartPath
  {
    ["  " + Bullet + " [" + step.action + "] " + step.description]
    + (if step.resultSummary != "" then
         ["    Result: " + step.resultSummary[..Min(|step.resultSummary|, DetailLimit)]]
       else [])
    + (if step.chartPath != "" then ["    Chart: " + step.chartPath] else [])
  }

  function AllDetailLines(steps: seq<AnalysisStep>): seq<string>
    decreases |steps|
  {
    if steps == [] then [] else AllDetailLines(steps[..|steps| - 1]) + DetailLines(steps[|steps| - 1])
  }

  function LatestLines(latest: seq<AnalysisStep>): seq<string> {
    ["LATEST STEPS:"] + AllDetailLines(latest)
  }

  function TokensLine(used: nat, saved: nat): string {
    "TOKENS: used=" + NatToString(used) + ", saved=" + NatToString(saved)
  }

  function BodyLines(v: View): seq<string> {
    match v
    case NoSteps => []
    case Flat(all) => FlatLines(all)
    case Tiered(earlier, recent, latest) => EarlierLines(earlier) + RecentLines(recent) + LatestLines(latest)
  }

  /** The lines of the compressed history: findings first, then the tiers, then the token footer. */
  function HistoryLines(v: View, findings: seq<string>, used: nat, saved: nat): (lines: seq<string>)
    ensures |lines| >= 2
    ensures lines[|lines| - 1] == TokensLine(used, saved) && lines[|lines| - 2] == ""
    ensures findings != [] ==> lines[0] == "KEY FINDINGS:"
    ensures |FindingsLines(findings)| <= |lines| - 2
    ensures lines[..|FindingsLines(findings)|] == FindingsLines(findings)
    ensures lines[|FindingsLines(findings)|..|lines| - 2] == BodyLines(v)
  {
    FindingsLines(findings) + BodyLines(v) + ["", TokensLine(used, saved)]
  }

  /**
   * `get_compressed_history` as a function of the manager's state: a fixed
   * sentence for an empty log, whatever the findings, and otherwise text whose
   * last line is the token footer.
   */
  function CompressedHistory(steps: seq<AnalysisStep>, maxDetailed: nat, maxSummary: nat,
                             findings: seq<string>, used: nat, saved: nat): (text: string)
    ensures steps == [] ==> text == NoHistory
    ensures steps != [] ==>
      var footer := "\n" + TokensLine(used, saved);
      |footer| <= |text| && text[|text| - |footer|..] == footer
  {
    if steps == [] then NoHistory
    else
      var lines := HistoryLines(Tiering(steps, maxDetailed, maxSummary), findings, used, saved);
      JoinEndsWith(lines, "\n");
      Join(lines, "\n")
  }

  /**
   * A log of at most `maxDetailed` steps is rendered under one "ANALYSIS HISTORY (n steps):"
   * header with one bullet line per step, in log order, after the findings block.
   */
  lemma SmallHistoryIsFlat(steps: seq<AnalysisStep>, maxDetailed: nat, maxSummary: nat,
                           findings: seq<string>, used: nat, saved: nat)
    requires 0 < |steps| <= maxDetailed
    ensures var lines := HistoryLines(Tiering(steps, maxDetailed, maxSummary), findings, used, saved);
      var f := |FindingsLines(findings)|;
      && |lines| == f + 1 + |steps| + 2
      && lines[f] == "ANALYSIS HISTORY (" + NatToString(|steps|) + " steps):"
      && forall k :: 0 <= k < |steps| ==> lines[f + 1 + k] == FlatLine(steps[k])
  {
    FlatHistoryLines(steps, maxDetailed, maxSummary, findings, used, saved);
    FlatLinesIn(FindingsLines(findings), steps, ["", TokensLine(used, saved)]);
  }

  lemma FlatHistoryLines(steps: seq<AnalysisStep>, maxDetailed: nat, maxSummary: nat,
                         findings: seq<string>, used: nat, saved: nat)
    requires 0 < |steps| <= maxDetailed
    ensures HistoryLines(Tiering(steps, maxDetailed, maxSummary), findings, used, saved)
         == FindingsLines(findings) + FlatLines(steps) + ["", TokensLine(used, saved)]
  {
    assert Tiering(steps, maxDetailed, maxSummary) == Flat(steps);
  }

  /** The flat section placed between any two blocks of lines, by position. */
  lemma FlatLinesIn(head: seq<string>, steps: seq<AnalysisStep>, tail: seq<string>)
    ensures var lines := head + FlatLines(steps) + tail;
      && |lines| == |head| + 1 + |steps| + |tail|
      && lines[|head|] == "ANALYSIS HISTORY (" + NatToString(|steps|) + " steps):"
      && forall k :: 0 <= k < |steps| ==> lines[|head| + 1 + k] == FlatLine(steps[k])
  {
    var body := FlatLines(steps);
    var lines := head + body + tail;
    forall k | 0 <= k < |steps| ensures lines[|head| + 1 + k] == FlatLine(steps[k]) {
      assert lines[|head| + 1 + k] == body[1 + k];
    }
  }

  // ---------------------------------------------------------------------------
  // The line-building loops of get_compressed_history, one block each

  method BuildFindingsLines(findings: seq<string>) returns (lines: seq<string>)
    ensures lines == FindingsLines(findings)
  {
    lines := [];
    if |findings| > 0 {
      lines := lines + ["KEY FINDINGS:"];
      var shown := LastN(findings, FindingsShown);
      for i := 0 to |shown|
        invariant lines == ["KEY FINDINGS:"] + NumberedFindings(shown, i)
      {
        NumberedFindingsStep(shown, i);
        lines := lines + [FindingLine(i + 1, shown[i])];
      }
      lines := lines + [""];
    }
  }

  method BuildFlatLines(steps: seq<AnalysisStep>) returns (lines: seq<string>)
    ensures lines == FlatLines(steps)
  {
    var header := "ANALYSIS HISTORY (" + NatToString(|steps|) + " steps):";
    lines := [header];
    for i := 0 to |steps|
      invariant lines == [header] + seq(i, k requires 0 <= k < i => FlatLine(steps[k]))
    {
      lines := lines + [FlatLine(steps[i])];
    }
  }

  /** Counts the actions into a list of (action, count) pairs kept in insertion order, as the dict does. */
  method CountActions(steps: seq<AnalysisStep>) returns (counts: Dict<nat>)
    ensures counts == ActionCounts(seq(|steps|, k requires 0 <= k < |steps| => steps[k].action))
  {
    var actions := seq(|steps|, k requires 0 <= k < |steps| => steps[k].action);
    counts := [];
    for i := 0 to |actions|
      invariant counts == ActionCounts(actions[..i])
    {
      assert actions[..i + 1][..i] == actions[..i];
      counts := Tally(counts, actions[i]);
    }
    assert actions[..|actions|] == actions;
  }

  method BuildEarlierLines(earlier: seq<AnalysisStep>) returns (lines: seq<string>)
    ensures lines == EarlierLines(earlier)
  {
    lines := [];
    if |earlier| > 0 {
      var counts := CountActions(earlier);
      var summaryParts := seq(|counts|, k requires 0 <= k < |counts| => CountPart(counts[k]));
      lines := ["EARLIER: " + NatToString(|earlier|) + " steps (" + Join(summaryParts, ", ") + ")", ""];
    }
  }

  method BuildRecentLines(recent: seq<AnalysisStep>) returns (lines: seq<string>)
    requires recent != []
    ensures lines == RecentLines(recent)
  {
    lines := ["RECENT STEPS:"];
    for i := 0 to |recent|
      invariant lines == ["RECENT STEPS:"] + seq(i, k requires 0 <= k < i => RecentLine(recent[k]))
    {
      lines := lines + [RecentLine(recent[i])];
    }
    lines := lines + [""];
  }

  method BuildLatestLines(latest: seq<AnalysisStep>) returns (lines: seq<string>)
    ensures lines == LatestLines(latest)
  {
    lines := ["LATEST STEPS:"];
    for i := 0 to |latest|
      invariant lines == ["LATEST STEPS:"] + AllDetailLines(latest[..i])
    {
      assert latest[..i + 1][..i] == latest[..i];
      lines := lines + DetailLines(latest[i]);
    }
    assert latest[..|latest|] == latest;
  }

  /** The tier sections, cut with the source's index arithmetic. */
  lemma TieringOfLong(steps: seq<AnalysisStep>, maxDetailed: nat, maxSummary: nat)
    requires |steps| > maxDetailed
    ensures var total := |steps|; var oldCutoff := Max(0, total - maxSummary);
      var recentStart := Max(oldCutoff, total - maxSummary); var detailStart := total - maxDetailed;
      Tiering(steps, maxDetailed, maxSummary) == Tiered(steps[..oldCutoff],
        if recentStart < detailStart then steps[recentStart..detailStart] else [], steps[detailStart..])
  {
  }

  method BuildBodyLines(steps: seq<AnalysisStep>, maxDetailed: nat, maxSummary: nat) returns (lines: seq<string>)
    requires steps != []
    ensures lines == BodyLines(Tiering(steps, maxDetailed, maxSummary))
  {
    var total := |steps|;
    if total <= maxDetailed {
      lines := BuildFlatLines(steps);
    } else {
      var oldCutoff := Max(0, total - maxSummary);
      lines := BuildEarlierLines(steps[..oldCutoff]);
      var recentStart := Max(oldCutoff, total - maxSummary);
      var detailStart := total - maxDetailed;
      if recentStart < detailStart {
        var recentLines := BuildRecentLines(steps[recentStart..detailStart]);
        lines := lines + recentLines;
      }
      var latestLines := BuildLatestLines(steps[detailStart..]);
      ghost var recent := if recentStart < detailStart then steps[recentStart..detailStart] else [];
      TieringOfLong(steps, maxDetailed, maxSummary);
      assert lines == EarlierLines(steps[..oldCutoff]) + RecentLines(recent);
      lines := lines + latestLines;
    }
  }

  // ---------------------------------------------------------------------------
  // HistoryStats: get_stats

  datatype HistoryStats = HistoryStats(
    totalSteps: nat,
    totalTokensUsed: nat,
    totalTokensSaved: nat,
    keyFindingsCount: nat,
    actionsPerformed: set<string>)

  /** The manager's state; the two tier limits are fixed when it is created. */
  class HistoryManager {
    var steps: seq<AnalysisStep>
    const maxDetailedSteps: nat
    const maxSummarySteps: nat
    var keyFindings: seq<string>
    var totalTokensUsed: nat
    var totalTokensSaved: nat

    constructor (maxDetailedSteps: nat, maxSummarySteps: nat)
      ensures this.maxDetailedSteps == maxDetailedSteps && this.maxSummarySteps == maxSummarySteps
      ensures steps == [] && keyFindings == [] && totalTokensUsed == 0 && totalTokensSaved == 0
    {
      this.maxDetailedSteps := maxDetailedSteps;
      this.maxSummarySteps := maxSummarySteps;
      steps := [];
      keyFindings := [];
      totalTokensUsed := 0;
      totalTokensSaved := 0;
    }

    /** `add_step`: appends the step and charges its tokens; nothing else changes. */
    method AddStep(step: AnalysisStep)
      modifies this
      ensures steps == old(steps) + [step]
      ensures totalTokensUsed == old(totalTokensUsed) + step.tokensUsed
      ensures keyFindings == old(keyFindings) && totalTokensSaved == old(totalTokensSaved)
    {
      steps := steps + [step];
      totalTokensUsed := totalTokensUsed + step.tokensUsed;
    }

    /** `add_finding`: appends without a bound and without removing duplicates. */
    method AddFinding(finding: string)
      modifies this
      ensures keyFindings == old(keyFindings) + [finding]
      ensures steps == old(steps) && totalTokensUsed == old(totalTokensUsed)
      ensures totalTokensSaved == old(totalTokensSaved)
    {
      keyFindings := keyFindings + [finding];
    }

    /** Adds to the saved-token counter, as the agent does after each compression. */
    method AddTokensSaved(n: nat)
      modifies this
      ensures totalTokensSaved == old(totalTokensSaved) + n
      ensures steps == old(steps) && keyFindings == old(keyFindings)
      ensures totalTokensUsed == old(totalTokensUsed)
    {
      totalTokensSaved := totalTokensSaved + n;
    }

    /** `clear`: empties the steps and the findings and resets both counters. */
    method Clear()
      modifies this
      ensures steps == [] && keyFindings == [] && totalTokensUsed == 0 && totalTokensSaved == 0
    {
      steps := [];
      keyFindings := [];
      totalTokensUsed := 0;
      totalTokensSaved := 0;
    }

    /** `get_stats`. */
    function Stats(): (s: HistoryStats)
      reads this
      ensures s.totalSteps == |steps| && s.keyFindingsCount == |keyFindings|
      ensures s.totalTokensUsed == totalTokensUsed && s.totalTokensSaved == totalTokensSaved
      ensures forall a :: a in s.actionsPerformed <==> exists k :: 0 <= k < |steps| && steps[k].action == a
    {
      HistoryStats(|steps|, totalTokensUsed, totalTokensSaved, |keyFindings|,
                   set k | 0 <= k < |steps| :: steps[k].action)
    }

    /** `get_full_history`: every step's dict, in log order. */
    function FullHistory(): (objects: seq<Json.Object>)
      reads this
      ensures |objects| == |steps|
      ensures forall k :: 0 <= k < |steps| ==> objects[k] == ToDict(steps[k])
    {
      seq(|steps|, k requires 0 <= k < |steps| reads this => ToDict(steps[k]))
    }

    /** `estimate_uncompressed_tokens`: a quarter of the length of the JSON text of the full history. */
    function EstimateUncompressedTokens(): (n: nat)
      reads this
      ensures 4 * n <= |Json.DumpList(FullHistory())| < 4 * n + 4
    {
      |Json.DumpList(FullHistory())| / 4
    }

    /** `get_compressed_history`, building the list of lines step by step as the source does. */
    method GetCompressedHistory() returns (text: string)
      ensures text == CompressedHistory(steps, maxDetailedSteps, maxSummarySteps,
                                        keyFindings, totalTokensUsed, totalTokensSaved)
    {
      if |steps| == 0 {
        return NoHistory;
      }
      var lines := BuildFindingsLines(keyFindings);
      var body := BuildBodyLines(steps, maxDetailedSteps, maxSummarySteps);
      lines := lines + body;
      lines := lines + [""];
      lines := lines + [TokensLine(totalTokensUsed, totalTokensSaved)];
      assert lines == HistoryLines(Tiering(steps, maxDetailedSteps, maxSummarySteps), keyFindings,
                                   totalTokensUsed, totalTokensSaved);
      text := Join(lines, "\n");
    }

    /** `estimate_compressed_tokens`: a quarter of the length of the compressed history. */
    method EstimateCompressedTokens() returns (n: nat)
      ensures n == |CompressedHistory(steps, maxDetailedSteps, maxSummarySteps,
                                      keyFindings, totalTokensUsed, totalTokensSaved)| / 4
    {
      var text := GetCompressedHistory();
      n := |text| / 4;
    }
  }
}

# EDA agent context compression, modelled in Dafny

This project models the bookkeeping and text-building core of an exploratory-data-analysis
agent. The agent turns a dataset and a growing log of analysis steps into short text for a
language model. It has four parts:

- **History manager** (`History`, history.dfy). This is an append-only
  log of analysis steps, an unbounded list of key findings, and two token counters.
  `get_compressed_history` renders them as text:
  - the KEY FINDINGS block, showing the last ten findings numbered from 1;
  - the steps, either one flat list or three tiers: EARLIER (action
    counts in first-seen order), RECENT (one-liners) and LATEST (detail lines);
  - a closing `TOKENS: used=…, saved=…` footer.
- **Schema compressor** (`Schema`, schema.dfy). Measured column facts are reduced to compact
  per-column stats:
  - the dtype code, looked up in the abbreviation map with a four-character fallback;
  - the encoded-category hint and the skew label;
  - the top value keys and a parse hint.

  The result is serialised in the line grammar `DS:name|Rr×Cc|MMB`, `COLS:`, then one
  `|`-joined line per column. The token estimate is a quarter of the text's length.
- **Prompt-compression client** (`ScaleDown`, scaledown.dfy). The local heuristic compressor
  applies its rewrites in order:
  1. it collapses runs of line breaks and spaces;
  2. it turns tabs into spaces;
  3. it deletes the filler phrases;
  4. it applies the whole-word, case-insensitive abbreviation table;
  5. it strips the ends.

  The fallback and the `compress` entry point both update running request and token counters.
- **EDA agent** (`Agent`, agent.dfy). It holds the tool catalogue and the dispatch and
  keyword routing of the analysis code. It also holds:
  - the key-finding filter over an analysis's printed output;
  - the tool plan of the automatic analysis;
  - the effect of one analysis on the history and the client;
  - dataset loading and the assembly of the context for the language model.

  One analysis is described by its `Run`: the step it records, the findings it keeps,
  its clamped saving, its token counts and its result dict. The agent's tracked state (the
  history's steps, findings and totals and the client's counters) is a `Snapshot`.
  An analysis moves the snapshot by its run (`After`), and the automatic analysis applies the
  runs of its plan in order (`PlanState`).

Supporting modules:
- `Text` (text.dfy) gives Python's `join`, `split`, `strip`, `str(int)` and `lower`, and the
  substring test.
- `Dicts` (dicts.dfy) models a string-keyed insertion-ordered dict.
- `Json` (json.dfy) models `json.dumps` of flat objects with `ensure_ascii`, and proves that its
  string escape is lossless.
- `Wrappers` (wrappers.dfy) holds `Option`.

The operations that mutate state are classes with `modifies` clauses:
- `HistoryManager`;
- `ScaleDownClient`;
- `EdaAgent`, which owns one of each of the other two.

Each loop of the source is a method with its invariants, proved against a specification
function. The properties are proved about those functions.

Where the code and its documentation disagree, the model follows the code:
- **Tiers.** RECENT is `steps[total - max_summary : total - max_detailed]`. With the defaults
  5 and 20, 27 steps render as 7 EARLIER, 15 RECENT and 5 LATEST. When
  `max_summary < max_detailed`, some steps appear both in EARLIER and in LATEST
  (`SmallSummaryRepeatsSteps`).
- **Findings.** `clear` also empties the findings. The findings list has no bound; only the
  rendering keeps the last ten.
- **Encoded-category hint.** It needs fewer than 20 distinct values and fewer distinct values
  than 5% of the non-null values.
- **Skew label.** Only a skewness beyond 1 in absolute value is labelled.
- **Unprinted statistics.** The median and the standard deviation are computed but never printed.
- **Not idempotent.** The heuristic compressor can shorten its own output again:
  `"a\n\nbasically\nb"` compresses to `"a\n\n\nb"` and then to `"a\n\nb"`. The filler
  deletion runs after the line-break collapse, so it can join two runs of line breaks.

## Model

| member | source | states |
|---|---|---|
| `History.TruncateSummary` | core/history_manager.py:43-44 | a result summary is kept as is up to 150 characters; a longer one becomes its first 150 characters plus "..." |
| `History.CompactParts` | core/history_manager.py:38-47 | the compact line is `[action]`, the description, an arrow part only for a non-empty summary, and the chart mark last and only for a non-empty chart path |
| `History.ToDict` | core/history_manager.py:27-36 | a step's dict has the seven keys in declaration order |
| `History.ToDictFields` | core/history_manager.py:27-36 | looking up each of the seven keys in a step's dict finds the field it names: the five text fields and the timestamp as strings, `tokens_used` as an integer |
| `History.ActionCountsKeys` | core/history_manager.py:104-108 | the EARLIER counts list every distinct action once, in order of first appearance |
| `History.ActionCountsCounts` | core/history_manager.py:104-109 | each EARLIER count is the number of steps with that action, and the counts add up to the number of EARLIER steps |
| `History.TieringPartitions` | core/history_manager.py:95-124 | with `max_summary >= max_detailed`, EARLIER, RECENT and LATEST are contiguous and chronological, cover the log exactly once, and have `max(0, total - max_summary)`, `min(total, max_summary) - max_detailed` and `max_detailed` steps |
| `History.DefaultTiersOf27` | core/history_manager.py:102-124 | with the defaults 5 and 20, a 27-step log has tiers of 7, 15 and 5 steps |
| `History.SmallSummaryRepeatsSteps` | core/history_manager.py:102-124 | whenever `max_summary < max_detailed < total`, the first step of LATEST also shows in EARLIER, and the three tiers together hold more steps than the log |
| `History.FindingsLines` | core/history_manager.py:86-90 | with no findings there is no block; otherwise a header, the last ten findings numbered from 1 in order, and a blank line |
| `History.DetailLines` | core/history_manager.py:124-129 | a LATEST entry has a result line only for a non-empty summary, showing its first `min(len, 200)` characters, and a chart line only for a non-empty chart path |
| `History.HistoryLines` | core/history_manager.py:83-133 | the numbered findings block comes first, before any tier; the tier sections follow it; the last two lines are a blank line and the TOKENS footer |
| `History.CompressedHistory` | core/history_manager.py:80-135 | an empty log renders exactly "No analysis performed yet.", whatever the findings; any other log ends with a line break and the TOKENS footer |
| `History.SmallHistoryIsFlat` | core/history_manager.py:95-99 | a log of at most `max_detailed` steps renders under one "ANALYSIS HISTORY (n steps):" header with one bullet line per step, in log order |
| `History.BuildFindingsLines` | core/history_manager.py:86-90 | the findings loop builds exactly the findings block |
| `History.BuildFlatLines` | core/history_manager.py:97-99 | the flat loop builds the header and one bullet line per step |
| `History.CountActions` | core/history_manager.py:104-107 | the counting loop fills the dict exactly as counting action by action does |
| `History.BuildEarlierLines` | core/history_manager.py:103-110 | the EARLIER line and its blank line appear only for a non-empty EARLIER tier |
| `History.BuildRecentLines` | core/history_manager.py:116-120 | the RECENT header, one arrow line per step, and a blank line |
| `History.BuildLatestLines` | core/history_manager.py:123-129 | the LATEST header, then each step's detail lines in order |
| `History.BuildBodyLines` | core/history_manager.py:95-129 | the tier sections, cut with the source's index arithmetic |
| `History.HistoryManager.constructor` | core/history_manager.py:53-59 | a new manager has the given tier limits, no steps, no findings and zero counters |
| `History.HistoryManager.AddStep` | core/history_manager.py:61-64 | appends exactly the step at the end and adds its tokens to the used counter; nothing else changes |
| `History.HistoryManager.AddFinding` | core/history_manager.py:66-68 | appends the finding at the end, with no bound and no deduplication; nothing else changes |
| `History.HistoryManager.AddTokensSaved` | core/eda_agent.py:125-126 | adds to the saved counter only; nothing else changes |
| `History.HistoryManager.Clear` | core/history_manager.py:171-176 | leaves no steps and no findings, and both counters at 0 |
| `History.HistoryManager.Stats` | core/history_manager.py:141-149 | reports the counters and sizes unchanged, and exactly the set of actions of the steps |
| `History.HistoryManager.FullHistory` | core/history_manager.py:137-139 | one dict per step, in log order |
| `History.HistoryManager.EstimateUncompressedTokens` | core/history_manager.py:151-154 | a quarter of the length of the JSON text of the full history, rounded down |
| `History.HistoryManager.GetCompressedHistory` | core/history_manager.py:70-135 | the line-building method yields the compressed history of the current state |
| `History.HistoryManager.EstimateCompressedTokens` | core/history_manager.py:156-159 | a quarter of the length of the compressed history, rounded down |
| `Json.EscapeRoundTrip` | core/history_manager.py:151-153 | the string escape of `json.dumps` is lossless: decoding it gives back the string |
| `Json.Escape` | core/history_manager.py:151-153 | an escaped string is printable ASCII and no shorter than the original |
| `Schema.CompactTypeSpec` | core/schema_compressor.py:58-59 | a type code has at most four characters; a dtype missing from the map gets its first four characters |
| `Schema.CompactTypeExamples` | core/schema_compressor.py:19-29 | listed dtypes get their fixed codes, and unlisted ones their four-character prefix |
| `Schema.FormatNumIntRoundTrip` | core/schema_compressor.py:152-153 | an integer statistic is printed as decimal digits that read back as the same integer |
| `Schema.TenthsRoundTrip` | core/schema_compressor.py:169-170 | the one-decimal null percentage is printed losslessly |
| `Schema.HundredthsRoundTrip` | core/schema_compressor.py:163 | the two-decimal memory size is printed losslessly |
| `Schema.LikelyCategorical` | core/schema_compressor.py:94-95 | the hint holds exactly when there are fewer than 20 distinct values and fewer distinct values than 5% of the non-null count |
| `Schema.SkewLabel` | core/schema_compressor.py:98-101 | `high_right` exactly when skew > 1, `high_left` exactly when skew < -1, and no label otherwise or for NaN |
| `Schema.ColumnStats` | core/schema_compressor.py:69-77 | numeric wins, then object or categorical, then datetime; an all-null column of any of these gets the all-null marker, and any other dtype gets no stats |
| `Schema.MedianAndStdNotPrinted` | core/schema_compressor.py:85-91 | changing a numeric column's median or standard deviation does not change its line |
| `Schema.TopShownSpec` | core/schema_compressor.py:112-116 | the `top:` segment shows at most three distinct keys, drawn in order from the first `max_unique_display` value counts |
| `Schema.StatPartsOrdered` | core/schema_compressor.py:174-189 | stat segments come in the fixed order range/μ, top, range, ⚠cat, skew, hint, none twice; the all-null marker adds none |
| `Schema.ColumnPartsShape` | core/schema_compressor.py:167-172 | a column line starts with `  name(type)`, has `null:p%` exactly when the percentage is positive, always has `uniq:n`, then the stat segments |
| `Schema.ToCompactString` | core/schema_compressor.py:160-193 | the serialising loop yields the header, `COLS:` and the column lines, joined by line breaks |
| `Schema.CompactStringLines` | core/schema_compressor.py:162-193 | splitting the text at line breaks gives the header, `COLS:` and exactly one line per column, in column order |
| `Schema.EstimateTokens` | core/schema_compressor.py:195-197 | the estimate is the text length divided by four, rounded down |
| `Schema.CompressSchema` | core/schema_compressor.py:35-54 | one compact column per input column, in order, then the compact text and its token estimate |
| `ScaleDown.CollapseNoPair` | core/scaledown_client.py:147 | after the space collapse no two spaces are adjacent |
| `ScaleDown.ReplaceCharSpec` | core/scaledown_client.py:148 | no tab survives the tab replacement, and no new character appears |
| `ScaleDown.RewriteShorter` | core/scaledown_client.py:161-183 | the filler and abbreviation rewrites never lengthen the text |
| `ScaleDown.HeuristicShape` | core/scaledown_client.py:133-189 | the output has no tab, no two adjacent spaces, no whitespace at either end, and is never longer than the input |
| `ScaleDown.ColumnsAbbreviated` | core/scaledown_client.py:165-183 | "Columns" becomes "cols": the word boundary keeps "column" from matching inside it |
| `ScaleDown.ColumnAbbreviated` | core/scaledown_client.py:165-183 | "column" becomes "col" |
| `ScaleDown.HeuristicNotIdempotent` | core/scaledown_client.py:143-189 | compressing "a\n\nbasically\nb" twice gives a shorter text than compressing it once |
| `ScaleDown.FallbackResult` | core/scaledown_client.py:107-131 | the fallback's text is the heuristic's output, its token counts are a quarter of each length, and its output count never exceeds its input count |
| `ScaleDown.CompressOutcome` | core/scaledown_client.py:32-105 | without a key the fallback answers; with a key, a status-200 reply gives its `compressed` else its `text` else the input, and an HTTP error or a failed request falls back with the error recorded |
| `ScaleDown.ScaleDownClient.constructor` | core/scaledown_client.py:24-30 | a new client keeps its key and starts with zero counters |
| `ScaleDown.ScaleDownClient.HeuristicCompress` | core/scaledown_client.py:133-189 | the rebinding loops over the fillers and abbreviations yield the heuristic's output |
| `ScaleDown.ScaleDownClient.Count` | core/scaledown_client.py:117-119 | one more request, and the input and output token counts added to their totals |
| `ScaleDown.ScaleDownClient.FallbackCompress` | core/scaledown_client.py:107-131 | returns the fallback result, adds one request and its token counts to the totals, and keeps the output total at or below the input total when it was so before |
| `ScaleDown.ScaleDownClient.Compress` | core/scaledown_client.py:32-105 | returns the outcome for the key and the reply, adds one request and its token counts to the totals; on a fallback answer the output total stays at or below the input total when it was so before |
| `ScaleDown.ScaleDownClient.Stats` | core/scaledown_client.py:191-201 | echoes the counters, and the saving is their difference |
| `Text.Strip` | core/eda_agent.py:576 | a stripped line is a contiguous piece of the line with no whitespace at either end |
| `Agent.ParseTag` | core/eda_agent.py:31-42 | a tag names a tool exactly when it is that tool's catalogue key |
| `Agent.ToolsKeys` | core/eda_agent.py:31-42 | the catalogue keys are exactly the tags of the ten tools |
| `Agent.StepDescriptionSpec` | core/eda_agent.py:131 | a catalogued tag is described by its catalogue entry; any other tag by the query, or by the tag when the query is empty |
| `Agent.FirstRoute` | core/eda_agent.py:538-555 | the first keyword group, in priority order, with a keyword in the query |
| `Agent.CodeCustom` | core/eda_agent.py:533-568 | the lower-cased query selects the template of the first matching group and of no earlier one; a query matching no group gets the generic template |
| `Agent.MissingCorrelationRoutesToCorrelations` | core/eda_agent.py:536-539 | "missing correlation" routes to the correlations code |
| `Agent.GenerateCode` | core/eda_agent.py:161-186 | each catalogued tag selects its template, "custom" the routed query code, and any other tag `print("Unknown tool: <tag>")` |
| `Agent.Findings` | core/eda_agent.py:582 | at most five findings are returned |
| `Agent.FindingLinesSpec` | core/eda_agent.py:575-580 | every collected line is a stripped output line that carries a marker and has 11 to 199 characters |
| `Agent.FindingsSpec` | core/eda_agent.py:570-582 | the findings are the stripped finding lines of the output in output order, and there are fewer than five only when there are no more |
| `Agent.ExtractFindings` | core/eda_agent.py:570-582 | the line loop yields exactly those findings |
| `Agent.AutoEdaPlanLength` | core/eda_agent.py:79-105 | the plan starts with overview and describe and has 2 to 7 tools |
| `Agent.AutoEdaPlanMembers` | core/eda_agent.py:85-105 | missing-value analysis runs exactly when there are nulls; distributions and outliers with a numeric column; correlations with two; value counts with an object column; nothing else |
| `Agent.AutoEdaPlanOrder` | core/eda_agent.py:77-107 | the tools run in one fixed order, none twice |
| `Agent.ContextText` | core/eda_agent.py:590-599 | the schema section comes first and only when there is a schema, then the compressed history |
| `Agent.EdaAgent.constructor` | core/eda_agent.py:44-51 | a fresh manager with the default limits, a fresh client, no dataset and the name "dataset" |
| `Agent.EdaAgent.LoadDataset` | core/eda_agent.py:53-67 | the dataset and its compressed schema replace the old ones, and the history's steps, findings and counters are reset. The schema carries the name, row and column counts and memory of the dataset, each column compressed in order, the compact string of those lines, and that string's token estimate |
| `Agent.EdaAgent.RecordFindings` | core/eda_agent.py:142-143 | the findings are appended in order; nothing else in the history changes |
| `Agent.RunOf` | core/eda_agent.py:109-155 | a run's step carries the tag, its description, the compressed token count and the timestamp; its result names the tag and that token count; its saving is the input count minus the output count, clamped at zero |
| `Agent.EdaAgent.RecordAnalysis` | core/eda_agent.py:125-143 | the clamped saving and the step's token count are added, the step appended, and the output's findings appended only for a successful run with output |
| `Agent.EdaAgent.RunAnalysis` | core/eda_agent.py:109-155 | the tracked state moves by exactly the run of the tag: one step appended (the run's step, with the compressed summary), the findings of a successful run with output appended, the used, saved and client totals raised by the run's counts, one request counted; the result is the run's result dict |
| `Agent.EdaAgent.RunCustomQuery` | core/eda_agent.py:157-159 | an analysis under the custom tag |
| `Agent.PlanSnoc` | core/eda_agent.py:80 | running one more tool moves the state by that tool's run and appends its result dict |
| `Agent.PlanResultsSpec` | core/eda_agent.py:77-107 | one result dict per tool run, each that tool's run result, in order |
| `Agent.PlanStateSpec` | core/eda_agent.py:77-107 | running tools appends exactly their runs' steps, in order, after the earlier steps; keeps the earlier findings as a prefix; counts one request per tool; adds to the used total what the client counted as output; never lowers the saved or input totals |
| `Agent.PlanTags` | core/eda_agent.py:77-107 | under the plan's runs, the k-th new step and the k-th result both carry the k-th tool's tag |
| `Agent.EdaAgent.RunTool` | core/eda_agent.py:80 | the state and the results move from those of the tools run so far to those of the tools with this one appended |
| `Agent.EdaAgent.RunToolIf` | core/eda_agent.py:86-87 | a guarded step runs the tool, as `RunTool` does, only when its condition holds, and otherwise changes nothing |
| `Agent.EdaAgent.RunFixed` | core/eda_agent.py:79-83 | overview, then describe, appended to the tools run so far |
| `Agent.EdaAgent.RunOptional` | core/eda_agent.py:85-105 | the five guarded tools, each appended exactly when its condition on the dataset holds, in source order |
| `Agent.EdaAgent.RunPlan` | core/eda_agent.py:77-107 | the state after the call is the state before it with the runs of the dataset's automatic plan applied in order, and the results are those runs' result dicts |
| `Agent.EdaAgent.RunAutoEda` | core/eda_agent.py:69-107 | without a dataset, one error entry and the steps, findings, history totals and client counters all unchanged; with one, the plan's runs applied in order and their result dicts returned |
| `Agent.EdaAgent.GetContextForLlm` | core/eda_agent.py:584-603 | the text is the client's compression of the assembled context; one request is counted and the outcome's input and output token counts are added to the client's totals |

## Left out

- Anything computed by pandas or numpy is an input of the model. This covers null counts, `nunique`, the five numeric statistics, skewness, value-count ordering, memory usage, the numeric and date parse hints, and the datetime range and span.
- The float branches of `_format_num` (`.2e`, `.4f`, `.2f`) are not modelled, because they are float formatting. A float statistic stands for its printed text.
- The null percentage and the memory size are given in tenths and hundredths. They are printed as Python prints such a rounded float.
- Every `savings_pct`, `overall_savings_pct`, `latency_ms` and `memory_mb` computation is left out, because these are float arithmetic and a clock.
- The HTTP request of `compress` is not modelled. The service's answer is a parameter (`RemoteReply`), and the console message printed on an error is dropped.
- The environment lookup of the API key and URL is not modelled; the key is a constructor parameter.
- `compression_history` and the raw `api_response` are left out, because they only store service replies.
- `test_connection` is left out, because it only calls `compress` on a fixed text.
- `get_savings_report`, `get_token_stats` and `get_full_vs_compressed_comparison` are left out, because they are float ratios over `df.to_string()` and the estimates above.
- core/code_executor.py is not part of this model. The executor, its result summary and the timestamp of new steps are functions and values of an `Environment` parameter.
- The bodies of the `_code_*` analysis templates (core/eda_agent.py:188-532) are opaque strings supplied by the environment, because they are plotting scripts.
- Changes that executed analysis code could make to the data frame are not modelled.
- The result dict of `_run_analysis` keeps the tool, success, output, chart path, code and token count. It drops `result_value`, `error` and `compression_savings`.
- `load_dataset` returns the compressed schema but not the float `comparison` dict.
- `max_sample_values` is not modelled, because the source stores it and never reads it.
- The `avg_len`, `span_days` and sorted `values` stats are carried but never printed, as in the source.
- `actions_performed` is a list built from a set, with no fixed order, and is modelled as a set.
- The tier limits are natural numbers; negative limits are outside the model.
- The code runs on a single thread, so concurrency is out of scope.
- `ScaleDown.ColumnsAbbreviated`, `ScaleDown.HeuristicShape`: `\w`, `\b` and `re.IGNORECASE` are approximated with ASCII letters, digits and underscore, and ASCII case folding. A word next to a non-ASCII letter can match here where Python's Unicode rules would not.
- `Agent.CodeCustom`: `str.lower()` is modelled for ASCII letters only. This routes every query as Python does. Only two non-ASCII characters lower-case to ASCII: U+212A becomes "k", and U+0130 becomes "i" followed by U+0307. No routing keyword contains "k" or ends in "i".
- `Agent.FindingsSpec`: the three symbol markers are the intended characters U+26A0, U+1F534 and U+2705. core/eda_agent.py is double-encoded throughout, and its analysis templates are too, so the mis-decoded markers at :578 do match what its own templates print (:226, :298, :427). Under the intended markers, the template line "No missing values found!" (:427) is therefore not a finding, while the program as written keeps it.
- `Json.EscapeRoundTrip`: `json.dumps` is modelled only for flat objects of strings and integers, which is all the history produces. The integer width is unbounded, as in Python.

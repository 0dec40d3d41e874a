/**
 * The schema compressor: per-column metadata (already measured by the data
 * frame library) is reduced to a dict of compact facts and serialised as the
 * line grammar `DS:name|Rr×Cc|MMB`, `COLS:`, then one `|`-joined line per column.
 */
module Schema {
  import opened Text
  import opened Wrappers
  import opened Dicts

  const Times := "\U{00D7}"
  const Mu := "\U{03BC}"
  const CatMark := "\U{26A0}cat"
  /** The default of `max_unique_display`: how many value-count keys and sorted values are kept. */
  const DefaultMaxUniqueDisplay: nat := 5
  /** The `top:` segment shows at most this many keys. */
  const TopShownLimit: nat := 3

  function Min(a: int, b: int): int {
    if a <= b then a else b
  }

  // ---------------------------------------------------------------------------
  // TYPE_MAP

  /** The dtype abbreviation table. */
  const TypeMap: map<string, string> := map[
    "int64" := "i64", "int32" := "i32", "float64" := "f64", "float32" := "f32",
    "object" := "str", "bool" := "bool", "datetime64[ns]" := "dt", "category" := "cat",
    "timedelta64[ns]" := "td"]

  /** `TYPE_MAP.get(dtype, dtype[:4])`. */
  function CompactType(dtype: string): string {
    if dtype in TypeMap then TypeMap[dtype] else dtype[..Min(4, |dtype|)]
  }

  /**
   * Every code has at most four characters; a dtype missing from the table is
   * cut to its first four characters.
   */
  lemma CompactTypeSpec(dtype: string)
    ensures |CompactType(dtype)| <= 4
    ensures dtype !in TypeMap ==> |CompactType(dtype)| == Min(4, |dtype|) && StartsWith(dtype, CompactType(dtype))
  {
    if dtype in TypeMap {
      assert dtype in {"int64", "int32", "float64", "float32", "object", "bool",
                       "datetime64[ns]", "category", "timedelta64[ns]"};
    }
  }

  /** Examples: listed names, and the four-character fallback for unlisted ones. */
  lemma CompactTypeExamples()
    ensures CompactType("int64") == "i64" && CompactType("object") == "str"
    ensures CompactType("datetime64[ns]") == "dt"
    ensures CompactType("datetime64[ns, UTC]") == "date" && CompactType("uint8") == "uint"
    ensures CompactType("u8") == "u8"
  {
    assert "datetime64[ns, UTC]" !in TypeMap;
    assert "uint8" !in TypeMap;
    assert "u8" !in TypeMap;
  }

  // ---------------------------------------------------------------------------
  // Numbers as the serialiser prints them

  /** A measured number: NaN, an integer, or a float carried as the text `_format_num` gives it. */
  datatype Num = NaN | Int(i: int) | Float(shown: string)

  /** `_format_num`: "NaN", the decimal integer, or the float's rendering. */
  function FormatNum(v: Num): string {
    match v
    case NaN => "NaN"
    case Int(i) => IntToString(i)
    case Float(shown) => shown
  }

  /** An integer statistic is printed so that it reads back as the same integer. */
  lemma FormatNumIntRoundTrip(i: int)
    ensures var r := FormatNum(Int(i));
      |r| >= 1 && (forall k :: 0 <= k < |r| ==> IsDigit(r[k]) || (k == 0 && r[k] == '-')) && ParseInt(r) == i
  {
    IntToStringRoundTrip(i);
  }

  lemma DigitsExclude(s: string, c: char)
    requires forall k :: 0 <= k < |s| ==> IsDigit(s[k])
    requires !IsDigit(c)
    ensures c !in s
  {
    forall k | 0 <= k < |s| ensures s[k] != c {
    }
  }

  /** A float rounded to one decimal, given in tenths, as Python prints it (`12.5`, `100.0`). */
  function FormatTenths(t: nat): string {
    NatToString(t / 10) + "." + [DigitChar(t % 10)]
  }

  function FracDigits(f: nat): string
    requires f < 100
  {
    if f % 10 == 0 then [DigitChar(f / 10)] else [DigitChar(f / 10), DigitChar(f % 10)]
  }

  /** A float rounded to two decimals, given in hundredths, as Python prints it (`0.05`, `1.5`, `2.0`). */
  function FormatHundredths(h: nat): string {
    NatToString(h / 100) + "." + FracDigits(h % 100)
  }

  predicate AllDigits(s: string) {
    forall k :: 0 <= k < |s| ==> IsDigit(s[k])
  }

  /** Reads `int.frac` back into tenths. */
  function ParseTenths(s: string): Option<nat> {
    var p := Split(s, '.');
    if |p| == 2 && AllDigits(p[0]) && |p[1]| == 1 && IsDigit(p[1][0])
    then Some(ParseNat(p[0]) * 10 + DigitValue(p[1][0]))
    else None
  }

  /** Reads `int.frac` back into hundredths. */
  function ParseHundredths(s: string): Option<nat> {
    var p := Split(s, '.');
    if |p| == 2 && AllDigits(p[0]) && 1 <= |p[1]| <= 2 && AllDigits(p[1]) then
      var f := if |p[1]| == 1 then DigitValue(p[1][0]) * 10 else DigitValue(p[1][0]) * 10 + DigitValue(p[1][1]);
      Some(ParseNat(p[0]) * 100 + f)
    else None
  }

  lemma SplitAtDot(a: string, b: string)
    requires AllDigits(a) && AllDigits(b)
    ensures Split(a + "." + b, '.') == [a, b]
  {
    DigitsExclude(a, '.');
    DigitsExclude(b, '.');
    assert Join([a, b], ".") == a + "." + b;
    JoinSplit([a, b], '.');
  }

  /** The one-decimal rendering loses nothing. */
  lemma TenthsRoundTrip(t: nat)
    ensures ParseTenths(FormatTenths(t)) == Some(t)
  {
    var a, b := NatToString(t / 10), [DigitChar(t % 10)];
    SplitAtDot(a, b);
    ParseNatToString(t / 10);
  }

  /** The two-decimal rendering loses nothing. */
  lemma HundredthsRoundTrip(h: nat)
    ensures ParseHundredths(FormatHundredths(h)) == Some(h)
  {
    var a, b := NatToString(h / 100), FracDigits(h % 100);
    SplitAtDot(a, b);
    ParseNatToString(h / 100);
    var f := h % 100;
    if f % 10 == 0 {
      assert f == (f / 10) * 10;
    } else {
      assert f == (f / 10) * 10 + f % 10;
    }
  }

  // ---------------------------------------------------------------------------
  // Column statistics: the decision rules over measured facts

  /** What the data frame library measured over a numeric column's non-null values. */
  datatype NumericFacts = NumericFacts(
    min: Num, max: Num, mean: Num, median: Num, std: Num,
    skew: Option<real>,          // None when the library's skewness is NaN
    sortedUnique: seq<Num>)      // `sorted(clean.unique())`

  /** What was measured over an object or categorical column's non-null values. */
  datatype CategoricalFacts = CategoricalFacts(
    valueCounts: seq<(string, nat)>,     // `str(value)` and count, most frequent first
    avgLenTenths: nat,
    parsesAsNumeric: bool,               // the first 20 values convert to numbers
    parsesAsDatetime: bool)              // the first 20 values convert to dates

  /** What was measured over a datetime column's non-null values. */
  datatype DatetimeFacts = DatetimeFacts(first: string, last: string, spanDays: int)

  /** One column as the library presents it: its dtype, which dtype tests hold, and its measurements. */
  datatype RawColumn = RawColumn(
    name: string, dtype: string,
    isNumeric: bool, isObject: bool, isCategorical: bool, isDatetime: bool,
    nulls: nat, nullPctTenths: nat, unique: nat, nonNull: nat,
    numeric: NumericFacts, categorical: CategoricalFacts, datetime: DatetimeFacts)

  datatype Stats =
    | NoStats                  // the dtype passed none of the three tests: no "stats" key
    | AllNull                  // the "all_null" marker
    | NumericStats(min: string, max: string, mean: string, median: string, std: string,
                   likelyCategorical: bool,
                   values: seq<Num>,        // empty unless likelyCategorical
                   skew: Option<string>)
    | CategoricalStats(topValues: Dict<nat>, avgLenTenths: nat, hint: Option<string>)
    | DatetimeStats(range: string, spanDays: int)

  /** The compact facts of one column (`_compress_column`'s dict). */
  datatype ColumnInfo = ColumnInfo(
    name: string, ctype: string, nulls: nat, nullPctTenths: nat, unique: nat, stats: Stats)

  /**
   * The hint that a numeric column is an encoded category: fewer than 20 distinct
   * values, and fewer distinct values than 5% of the non-null values.
   */
  function LikelyCategorical(nunique: nat, count: nat): (r: bool)
    ensures r <==> nunique < 20 && 20 * nunique < count
  {
    nunique < 20 && (nunique as real) < (count as real) * 0.05
  }

  /** Only a skewness beyond 1 in absolute value is labelled; NaN never is. */
  function SkewLabel(skew: Option<real>): (r: Option<string>)
    ensures r == Some("high_right") <==> skew.Some? && skew.value > 1.0
    ensures r == Some("high_left") <==> skew.Some? && skew.value < -1.0
    ensures r == None <==> skew.None? || (-1.0 <= skew.value <= 1.0)
  {
    if skew.Some? && (if skew.value < 0.0 then -skew.value else skew.value) > 1.0 then
      Some(if skew.value > 0.0 then "high_right" else "high_left")
    else None
  }

  function Take<T>(xs: seq<T>, n: nat): (r: seq<T>)
    ensures |r| == Min(n, |xs|) && r == xs[..|r|]
  {
    xs[..Min(n, |xs|)]
  }

  /** `_numeric_stats`. */
  function NumericStatsOf(c: RawColumn, display: nat): Stats {
    if c.nonNull == 0 then AllNull
    else
      var f := c.numeric;
      var likely := LikelyCategorical(c.unique, c.nonNull);
      NumericStats(FormatNum(f.min), FormatNum(f.max), FormatNum(f.mean), FormatNum(f.median), FormatNum(f.std),
                   likely, if likely then Take(f.sortedUnique, display) else [], SkewLabel(f.skew))
  }

  /** `{str(k): int(v) for k, v in value_counts.head(top_n).items()}`. */
  function TopValues(valueCounts: seq<(string, nat)>, display: nat): Dict<nat> {
    FromPairs(Take(valueCounts, display))
  }

  /** `_categorical_stats`: the parse hint prefers "numeric" over "datetime". */
  function CategoricalStatsOf(c: RawColumn, display: nat): Stats {
    if c.nonNull == 0 then AllNull
    else
      var f := c.categorical;
      CategoricalStats(TopValues(f.valueCounts, display), f.avgLenTenths,
                       if f.parsesAsNumeric then Some("parseable_as_numeric")
                       else if f.parsesAsDatetime then Some("parseable_as_datetime")
                       else None)
  }

  /** `_datetime_stats`. */
  function DatetimeStatsOf(c: RawColumn): Stats {
    if c.nonNull == 0 then AllNull
    else DatetimeStats(c.datetime.first + " to " + c.datetime.last, c.datetime.spanDays)
  }

  /**
   * The type dispatch of `_compress_column`: the numeric test wins, then object
   * or categorical, then datetime; an all-null column of any of the three kinds
   * gets the "all_null" marker, and a column of no kind gets no stats at all.
   */
  function ColumnStats(c: RawColumn, display: nat): (s: Stats)
    ensures c.isNumeric ==> s.AllNull? || s.NumericStats?
    ensures !c.isNumeric && (c.isObject || c.isCategorical) ==> s.AllNull? || s.CategoricalStats?
    ensures !c.isNumeric && !c.isObject && !c.isCategorical && c.isDatetime ==> s.AllNull? || s.DatetimeStats?
    ensures s.NoStats? <==> !c.isNumeric && !c.isObject && !c.isCategorical && !c.isDatetime
    ensures !s.NoStats? ==> (s.AllNull? <==> c.nonNull == 0)
  {
    if c.isNumeric then NumericStatsOf(c, display)
    else if c.isObject || c.isCategorical then CategoricalStatsOf(c, display)
    else if c.isDatetime then DatetimeStatsOf(c)
    else NoStats
  }

  /** `_compress_column`. */
  function CompressColumn(c: RawColumn, display: nat): ColumnInfo {
    ColumnInfo(c.name, CompactType(c.dtype), c.nulls, c.nullPctTenths, c.unique, ColumnStats(c, display))
  }

  /** Of a numeric column's five statistics, only min, max and mean reach the text. */
  lemma MedianAndStdNotPrinted(c: RawColumn, c': RawColumn, display: nat)
    requires c.isNumeric && c' == c.(numeric := c.numeric.(median := c'.numeric.median, std := c'.numeric.std))
    ensures ColumnLine(CompressColumn(c, display)) == ColumnLine(CompressColumn(c', display))
  {
  }

  // ---------------------------------------------------------------------------
  // _to_compact_string

  /** The keys shown in the `top:` segment. */
  function TopShown(top: Dict<nat>): seq<string> {
    Take(Keys(top), TopShownLimit)
  }

  /**
   * The `top:` segment shows at most three keys, none twice, each a `str(value)`
   * among the first `display` value counts, in the order they come there.
   */
  lemma TopShownSpec(valueCounts: seq<(string, nat)>, display: nat)
    ensures var shown := TopShown(TopValues(valueCounts, display));
      var head := Keys(Take(valueCounts, display));
      && |shown| <= TopShownLimit
      && shown == Take(Dedupe(head), TopShownLimit)
      && Distinct(shown)
      && (forall k :: 0 <= k < |shown| ==> shown[k] in head)
      && (forall i, j :: 0 <= i < j < |shown| ==> FirstIndex(head, shown[i]) < FirstIndex(head, shown[j]))
  {
    var head := Keys(Take(valueCounts, display));
    FromPairsKeys(Take(valueCounts, display));
    DedupeSpec(head);
    var d := Dedupe(head);
    var shown := TopShown(TopValues(valueCounts, display));
    forall k | 0 <= k < |shown| ensures shown[k] in head {
      assert shown[k] == d[k];
    }
  }

  /** The segments a column's stats add, in the serialiser's fixed order. */
  function StatParts(s: Stats): seq<string> {
    match s
    case NumericStats(mn, mx, mean, _, _, likely, _, skew) =>
      ["[" + mn + ".." + mx + "]", Mu + "=" + mean]
      + (if likely then [CatMark] else [])
      + (if skew.Some? then ["skew:" + skew.value] else [])
    case CategoricalStats(top, _, hint) =>
      ["top:" + Join(TopShown(top), ",")]
      + (if hint.Some? then ["hint:" + hint.value] else [])
    case DatetimeStats(range, _) => ["range:" + range]
    case _ => []
  }

  /** Position of a segment in the serialiser's order: range/μ, top, range, ⚠cat, skew, hint. */
  function SegmentRank(part: string): nat {
    if StartsWith(part, "[") then 0
    else if StartsWith(part, Mu + "=") then 1
    else if StartsWith(part, "top:") then 2
    else if StartsWith(part, "range:") then 3
    else if part == CatMark then 4
    else if StartsWith(part, "skew:") then 5
    else if StartsWith(part, "hint:") then 6
    else 7
  }

  lemma PrefixRank(p: string, rest: string, rank: nat)
    requires (p == "[" && rank == 0) || (p == Mu + "=" && rank == 1) || (p == "top:" && rank == 2)
          || (p == "range:" && rank == 3) || (p == "skew:" && rank == 5) || (p == "hint:" && rank == 6)
    ensures SegmentRank(p + rest) == rank
  {
    var s := p + rest;
    assert s[..|p|] == p;
    assert s[0] == p[0];
    assert s[..1] == [s[0]];
    if |p| >= 2 {
      assert s[..2] == p[..2];
    }
  }

  /** Stat segments appear in the fixed order, each kind at most once; the "all_null" marker adds none. */
  lemma StatPartsOrdered(s: Stats)
    ensures forall i, j :: 0 <= i < j < |StatParts(s)| ==> SegmentRank(StatParts(s)[i]) < SegmentRank(StatParts(s)[j])
    ensures forall i :: 0 <= i < |StatParts(s)| ==> SegmentRank(StatParts(s)[i]) < 7
    ensures s.AllNull? || s.NoStats? ==> StatParts(s) == []
  {
    match s
    case NumericStats(mn, mx, mean, _, _, likely, _, skew) =>
      PrefixRank("[", mn + ".." + mx + "]", 0);
      assert "[" + mn + ".." + mx + "]" == "[" + (mn + ".." + mx + "]");
      PrefixRank(Mu + "=", mean, 1);
      if skew.Some? {
        PrefixRank("skew:", skew.value, 5);
      }
    case CategoricalStats(top, _, hint) =>
      PrefixRank("top:", Join(TopShown(top), ","), 2);
      if hint.Some? {
        PrefixRank("hint:", hint.value, 6);
      }
    case DatetimeStats(range, _) =>
      PrefixRank("range:", range, 3);
    case _ =>
  }

  function NullPart(c: ColumnInfo): string {
    "null:" + FormatTenths(c.nullPctTenths) + "%"
  }

  /** The `|`-joined segments of one column line. */
  function ColumnParts(c: ColumnInfo): seq<string> {
    ["  " + c.name + "(" + c.ctype + ")"]
    + (if c.nullPctTenths > 0 then [NullPart(c)] else [])
    + ["uniq:" + NatToString(c.unique)]
    + StatParts(c.stats)
  }

  /**
   * A column line starts with `  name(type)`, shows `null:p%` exactly when the
   * null percentage is positive, always shows `uniq:n`, and ends with the stat segments.
   */
  lemma ColumnPartsShape(c: ColumnInfo)
    ensures var parts := ColumnParts(c);
      var u := if c.nullPctTenths > 0 then 2 else 1;
      && |parts| == u + 1 + |StatParts(c.stats)|
      && parts[0] == "  " + c.name + "(" + c.ctype + ")"
      && (c.nullPctTenths > 0 <==> StartsWith(parts[1], "null:"))
      && parts[u] == "uniq:" + NatToString(c.unique)
      && parts[u + 1..] == StatParts(c.stats)
  {
    var parts := ColumnParts(c);
    if c.nullPctTenths == 0 {
      assert parts[1][..5] == "uniq:"[..5];
    } else {
      assert parts[1][..5] == NullPart(c)[..5];
    }
  }

  function ColumnLine(c: ColumnInfo): string {
    Join(ColumnParts(c), "|")
  }

  /** The dict built by `compress_schema` before the compact string is added. */
  datatype SchemaInfo = SchemaInfo(name: string, rows: nat, cols: nat, columns: seq<ColumnInfo>, memoryHundredths: nat)

  /** `compress_schema`'s result: the dict with the compact string and its token estimate. */
  datatype CompressedSchema = CompressedSchema(info: SchemaInfo, compactString: string, tokenEstimate: nat)

  function HeaderLine(s: SchemaInfo): string {
    "DS:" + s.name + "|" + NatToString(s.rows) + "r" + Times + NatToString(s.cols) + "c|"
    + FormatHundredths(s.memoryHundredths) + "MB"
  }

  function CompactLines(s: SchemaInfo): seq<string> {
    [HeaderLine(s), "COLS:"] + seq(|s.columns|, k requires 0 <= k < |s.columns| => ColumnLine(s.columns[k]))
  }

  /** `_to_compact_string`, building the line list column by column. */
  method ToCompactString(s: SchemaInfo) returns (text: string)
    ensures text == Join(CompactLines(s), "\n")
  {
    var lines := [HeaderLine(s), "COLS:"];
    for i := 0 to |s.columns|
      invariant lines == [HeaderLine(s), "COLS:"] + seq(i, k requires 0 <= k < i => ColumnLine(s.columns[k]))
    {
      var parts := ColumnParts(s.columns[i]);
      lines := lines + [Join(parts, "|")];
    }
    assert lines == CompactLines(s);
    text := Join(lines, "\n");
  }

  /** `_estimate_tokens`: about four characters per token, rounded down. */
  function EstimateTokens(text: string): (n: nat)
    ensures 4 * n <= |text| < 4 * n + 4
  {
    |text| / 4
  }

  /** `compress_schema`: one compact column per input column, in order, then the text and its estimate. */
  method CompressSchema(name: string, rows: nat, memoryHundredths: nat, raw: seq<RawColumn>, display: nat)
    returns (schema: CompressedSchema)
    ensures schema.info.name == name && schema.info.rows == rows && schema.info.cols == |raw|
    ensures schema.info.memoryHundredths == memoryHundredths
    ensures |schema.info.columns| == |raw|
    ensures forall k :: 0 <= k < |raw| ==> schema.info.columns[k] == CompressColumn(raw[k], display)
    ensures schema.compactString == Join(CompactLines(schema.info), "\n")
    ensures schema.tokenEstimate == EstimateTokens(schema.compactString)
  {
    var columns: seq<ColumnInfo> := [];
    for i := 0 to |raw|
      invariant |columns| == i
      invariant forall k :: 0 <= k < i ==> columns[k] == CompressColumn(raw[k], display)
    {
      columns := columns + [CompressColumn(raw[i], display)];
    }
    var info := SchemaInfo(name, rows, |raw|, columns, memoryHundredths);
    var text := ToCompactString(info);
    schema := CompressedSchema(info, text, EstimateTokens(text));
  }

  // ---------------------------------------------------------------------------
  // The text has one line per column

  predicate NoNewline(s: string) {
    '\n' !in s
  }

  predicate StatsNewlineFree(s: Stats) {
    match s
    case NumericStats(mn, mx, mean, _, _, _, _, skew) =>
      NoNewline(mn) && NoNewline(mx) && NoNewline(mean) && (skew.Some? ==> NoNewline(skew.value))
    case CategoricalStats(top, _, hint) =>
      (forall k :: 0 <= k < |top| ==> NoNewline(top[k].0)) && (hint.Some? ==> NoNewline(hint.value))
    case DatetimeStats(range, _) => NoNewline(range)
    case _ => true
  }

  /** None of the names and printed values hold a line break. */
  predicate NewlineFree(s: SchemaInfo) {
    && NoNewline(s.name)
    && forall k :: 0 <= k < |s.columns| ==>
         NoNewline(s.columns[k].name) && NoNewline(s.columns[k].ctype) && StatsNewlineFree(s.columns[k].stats)
  }

  lemma StatPartsNewlineFree(s: Stats)
    requires StatsNewlineFree(s)
    ensures forall k :: 0 <= k < |StatParts(s)| ==> NoNewline(StatParts(s)[k])
  {
    match s
    case CategoricalStats(top, _, hint) =>
      var shown := TopShown(top);
      forall k | 0 <= k < |shown| ensures '\n' !in shown[k] {
        assert shown[k] == Keys(top)[k] == top[k].0;
      }
      JoinExcludes(shown, ",", '\n');
    case _ =>
  }

  lemma ColumnLineNewlineFree(c: ColumnInfo)
    requires NoNewline(c.name) && NoNewline(c.ctype) && StatsNewlineFree(c.stats)
    ensures NoNewline(ColumnLine(c))
  {
    var parts := ColumnParts(c);
    StatPartsNewlineFree(c.stats);
    DigitsExclude(NatToString(c.unique), '\n');
    DigitsExclude(NatToString(c.nullPctTenths / 10), '\n');
    forall k | 0 <= k < |parts| ensures '\n' !in parts[k] {
      ColumnPartsShape(c);
    }
    JoinExcludes(parts, "|", '\n');
  }

  lemma HeaderNewlineFree(s: SchemaInfo)
    requires NoNewline(s.name)
    ensures NoNewline(HeaderLine(s))
  {
    DigitsExclude(NatToString(s.rows), '\n');
    DigitsExclude(NatToString(s.cols), '\n');
    DigitsExclude(NatToString(s.memoryHundredths / 100), '\n');
    DigitsExclude(FracDigits(s.memoryHundredths % 100), '\n');
  }

  /**
   * Splitting the compact text at line breaks gives the header, `COLS:`, and
   * exactly one line per column in column order.
   */
  lemma CompactStringLines(s: SchemaInfo)
    requires NewlineFree(s)
    ensures var lines := Split(Join(CompactLines(s), "\n"), '\n');
      && |lines| == 2 + |s.columns|
      && lines[0] == HeaderLine(s) && lines[1] == "COLS:"
      && forall k :: 0 <= k < |s.columns| ==> lines[2 + k] == ColumnLine(s.columns[k])
  {
    var lines := CompactLines(s);
    HeaderNewlineFree(s);
    forall k | 2 <= k < |lines| ensures '\n' !in lines[k] {
      ColumnLineNewlineFree(s.columns[k - 2]);
    }
    JoinSplit(lines, '\n');
  }
}

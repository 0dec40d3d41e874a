/**
 * The prompt-compression client: an optional remote compressor and the local
 * heuristic it falls back to (whitespace collapsing, filler-phrase removal and
 * a whole-word abbreviation table), with running token counters.
 */
module ScaleDown {
  import opened Text
  import opened Wrappers

  // ---------------------------------------------------------------------------
  // Runs of one character: `re.sub(c + '{m,}', c * keep, s)`

  /** The number of leading copies of `c`. */
  function RunLength(s: string, c: char): (n: nat)
    ensures n <= |s|
    ensures forall k :: 0 <= k < n ==> s[k] == c
    ensures n == |s| || s[n] != c
    decreases |s|
  {
    if |s| > 0 && s[0] == c then 1 + RunLength(s[1..], c) else 0
  }

  function Repeat(c: char, n: nat): (r: string)
    ensures |r| == n && forall k :: 0 <= k < n ==> r[k] == c
  {
    seq(n, k => c)
  }

  /** Every maximal run of at least `minRun` copies of `c` becomes `keep` copies. */
  function CollapseRuns(s: string, c: char, minRun: nat, keep: nat): string
    decreases |s|
  {
    if |s| == 0 then ""
    else if s[0] != c then [s[0]] + CollapseRuns(s[1..], c, minRun, keep)
    else
      var n := RunLength(s, c);
      (if n >= minRun then Repeat(c, keep) else s[..n]) + CollapseRuns(s[n..], c, minRun, keep)
  }

  lemma {:induction false} CollapseShorter(s: string, c: char, minRun: nat, keep: nat)
    requires keep <= minRun
    ensures |CollapseRuns(s, c, minRun, keep)| <= |s|
    decreases |s|
  {
    if |s| > 0 {
      if s[0] != c {
        CollapseShorter(s[1..], c, minRun, keep);
      } else {
        CollapseShorter(s[RunLength(s, c)..], c, minRun, keep);
      }
    }
  }

  /** Collapsing introduces no character that was not there. */
  lemma {:induction false} CollapseExcludes(s: string, c: char, minRun: nat, keep: nat, x: char)
    requires x !in s
    ensures x !in CollapseRuns(s, c, minRun, keep)
    decreases |s|
  {
    if |s| > 0 {
      if s[0] != c {
        CollapseExcludes(s[1..], c, minRun, keep, x);
      } else {
        var n := RunLength(s, c);
        assert s[0] == c;
        CollapseExcludes(s[n..], c, minRun, keep, x);
      }
    }
  }

  /** A string without `c` is left as it is. */
  lemma {:induction false} CollapseAbsent(s: string, c: char, minRun: nat, keep: nat)
    requires c !in s
    ensures CollapseRuns(s, c, minRun, keep) == s
    decreases |s|
  {
    if |s| > 0 {
      CollapseAbsent(s[1..], c, minRun, keep);
      assert s == [s[0]] + s[1..];
    }
  }

  predicate NoPair(r: string, c: char) {
    forall i :: 0 <= i < |r| - 1 ==> !(r[i] == c && r[i + 1] == c)
  }

  lemma {:induction false} CollapseHead(t: string, c: char, minRun: nat, keep: nat)
    requires |t| > 0 && t[0] != c
    ensures |CollapseRuns(t, c, minRun, keep)| > 0 && CollapseRuns(t, c, minRun, keep)[0] == t[0]
  {
  }

  /** After collapsing runs of two or more into one, no two copies of `c` are adjacent. */
  lemma {:induction false} CollapseNoPair(s: string, c: char)
    ensures NoPair(CollapseRuns(s, c, 2, 1), c)
    decreases |s|
  {
    if |s| > 0 {
      var r := CollapseRuns(s, c, 2, 1);
      if s[0] != c {
        CollapseNoPair(s[1..], c);
        assert r == [s[0]] + CollapseRuns(s[1..], c, 2, 1);
      } else {
        var n := RunLength(s, c);
        var rest := CollapseRuns(s[n..], c, 2, 1);
        CollapseNoPair(s[n..], c);
        assert (if n >= 2 then Repeat(c, 1) else s[..n]) == [c];
        assert r == [c] + rest;
        if |rest| > 0 {
          CollapseHead(s[n..], c, 2, 1);
        }
      }
    }
  }

  /** `re.sub(from, to, s)` for single characters. */
  function ReplaceChar(s: string, from: char, to: char): (r: string)
    ensures |r| == |s|
  {
    seq(|s|, k requires 0 <= k < |s| => if s[k] == from then to else s[k])
  }

  lemma ReplaceCharSpec(s: string, from: char, to: char, x: char)
    ensures from != to ==> from !in ReplaceChar(s, from, to)
    ensures x !in s && x != to ==> x !in ReplaceChar(s, from, to)
  {
    var r := ReplaceChar(s, from, to);
    if from != to {
      forall k | 0 <= k < |r| ensures r[k] != from {
      }
    }
    if x !in s && x != to {
      forall k | 0 <= k < |r| ensures r[k] != x {
      }
    }
  }

  // ---------------------------------------------------------------------------
  // Whole-word, case-insensitive substitution: `re.sub(r'\b' + p + r'\b', rep, s, flags=re.IGNORECASE)`

  /** The characters `\w` matches, restricted to ASCII. */
  predicate IsWordChar(ch: char) {
    'a' <= ch <= 'z' || 'A' <= ch <= 'Z' || '0' <= ch <= '9' || ch == '_'
  }

  /** `\b` holds between positions `i - 1` and `i`. */
  predicate Boundary(s: string, i: int)
    requires 0 <= i <= |s|
  {
    (i > 0 && IsWordChar(s[i - 1])) != (i < |s| && IsWordChar(s[i]))
  }

  /** The lower-case phrase `p` matches, as a whole word, at position `i` of `s`. */
  predicate MatchAt(s: string, p: string, i: int) {
    0 <= i && i + |p| <= |s| && Lower(s[i..i + |p|]) == p && Boundary(s, i) && Boundary(s, i + |p|)
  }

  /** The left-to-right scan of `re.sub` from position `i`: a match is replaced and skipped. */
  function SubFrom(s: string, p: string, rep: string, i: nat): string
    requires |p| > 0 && i <= |s|
    decreases |s| - i
  {
    if i == |s| then ""
    else if MatchAt(s, p, i) then rep + SubFrom(s, p, rep, i + |p|)
    else [s[i]] + SubFrom(s, p, rep, i + 1)
  }

  /** The whole-word substitution; an empty phrase, which no table holds, leaves the text alone. */
  function SubWord(s: string, p: string, rep: string): string {
    if |p| == 0 then s else SubFrom(s, p, rep, 0)
  }

  /** A replacement no longer than the phrase never makes the text longer. */
  lemma {:induction false} SubShorter(s: string, p: string, rep: string, i: nat)
    requires |p| > 0 && i <= |s| && |rep| <= |p|
    ensures |SubFrom(s, p, rep, i)| <= |s| - i
    decreases |s| - i
  {
    if i < |s| {
      if MatchAt(s, p, i) {
        SubShorter(s, p, rep, i + |p|);
      } else {
        SubShorter(s, p, rep, i + 1);
      }
    }
  }

  /** A character in neither the text nor the replacement is not in the result. */
  lemma {:induction false} SubExcludes(s: string, p: string, rep: string, i: nat, x: char)
    requires |p| > 0 && i <= |s| && x !in s && x !in rep
    ensures x !in SubFrom(s, p, rep, i)
    decreases |s| - i
  {
    if i < |s| {
      if MatchAt(s, p, i) {
        SubExcludes(s, p, rep, i + |p|, x);
      } else {
        SubExcludes(s, p, rep, i + 1, x);
      }
    }
  }

  /** Where the phrase matches nowhere from `i` on, the rest of the text is copied. */
  lemma {:induction false} SubNoMatch(s: string, p: string, rep: string, i: nat)
    requires |p| > 0 && i <= |s|
    requires forall j :: i <= j <= |s| - |p| ==> !MatchAt(s, p, j)
    ensures SubFrom(s, p, rep, i) == s[i..]
    decreases |s| - i
  {
    if i < |s| {
      SubNoMatch(s, p, rep, i + 1);
      assert s[i..] == [s[i]] + s[i + 1..];
    }
  }

  /** A text shorter than the phrase is left as it is. */
  lemma SubWordShort(s: string, p: string, rep: string)
    requires 0 < |p| && |s| < |p|
    ensures SubWord(s, p, rep) == s
  {
    SubNoMatch(s, p, rep, 0);
  }

  // ---------------------------------------------------------------------------
  // The heuristic compressor

  const Fillers: seq<string> := [
    "please note that", "it is important to", "it should be noted that", "as we can see",
    "in other words", "basically", "essentially", "the following"]

  /** The abbreviation table in its insertion order (the order the rewrites run in). */
  const Abbreviations: seq<(string, string)> := [
    ("column", "col"), ("columns", "cols"), ("number", "num"), ("average", "avg"),
    ("maximum", "max"), ("minimum", "min"), ("standard deviation", "std"),
    ("correlation", "corr"), ("distribution", "dist"), ("percentage", "pct"),
    ("approximately", "~"), ("greater than", ">"), ("less than", "<"),
    ("missing values", "nulls"), ("null values", "nulls")]

  /** Every phrase is non-empty and every short form is shorter than its phrase and free of blanks. */
  predicate WellFormedTable(table: seq<(string, string)>) {
    forall k :: 0 <= k < |table| ==>
      0 < |table[k].0| && |table[k].1| <= |table[k].0| && '\t' !in table[k].1 && ' ' !in table[k].1
  }

  /** The filler phrases as a table of deletions. */
  function FillerTable(fillers: seq<string>): (t: seq<(string, string)>)
    ensures |t| == |fillers| && forall k :: 0 <= k < |t| ==> t[k] == (fillers[k], "")
  {
    seq(|fillers|, k requires 0 <= k < |fillers| => (fillers[k], ""))
  }

  /** No filler phrase is shorter than nine characters. */
  lemma FillersLong()
    ensures forall k :: 0 <= k < |FillerTable(Fillers)| ==> 9 <= |FillerTable(Fillers)[k].0|
  {
  }

  /** No phrase of the abbreviation table is shorter than six characters. */
  lemma AbbreviationsLong()
    ensures forall k :: 0 <= k < |Abbreviations| ==> 6 <= |Abbreviations[k].0|
  {
  }

  lemma TablesWellFormed()
    ensures WellFormedTable(FillerTable(Fillers))
    ensures WellFormedTable(Abbreviations)
  {
  }

  /** Apply the rewrites of the table from entry `i` on, in turn, to the whole text. */
  function RewriteFrom(s: string, table: seq<(string, string)>, i: nat): string
    requires i <= |table|
    decreases |table| - i
  {
    if i == |table| then s else RewriteFrom(SubWord(s, table[i].0, table[i].1), table, i + 1)
  }

  function Rewrite(s: string, table: seq<(string, string)>): string {
    RewriteFrom(s, table, 0)
  }

  /** `_heuristic_compress` as one expression, step by step. */
  function Heuristic(text: string): string {
    var s1 := CollapseRuns(text, '\n', 3, 2);
    var s2 := CollapseRuns(s1, ' ', 2, 1);
    var s3 := ReplaceChar(s2, '\t', ' ');
    var s4 := Rewrite(s3, FillerTable(Fillers));
    var s5 := Rewrite(s4, Abbreviations);
    var s6 := CollapseRuns(s5, ' ', 2, 1);
    Strip(s6)
  }

  lemma {:induction false} RewriteShorter(s: string, table: seq<(string, string)>, i: nat)
    requires WellFormedTable(table) && i <= |table|
    ensures |RewriteFrom(s, table, i)| <= |s|
    decreases |table| - i
  {
    if i < |table| {
      if |table[i].0| > 0 {
        SubShorter(s, table[i].0, table[i].1, 0);
      }
      RewriteShorter(SubWord(s, table[i].0, table[i].1), table, i + 1);
    }
  }

  lemma {:induction false} RewriteExcludes(s: string, table: seq<(string, string)>, i: nat, x: char)
    requires i <= |table| && x !in s
    requires forall k :: 0 <= k < |table| ==> x !in table[k].1
    ensures x !in RewriteFrom(s, table, i)
    decreases |table| - i
  {
    if i < |table| {
      if |table[i].0| > 0 {
        SubExcludes(s, table[i].0, table[i].1, 0, x);
      }
      RewriteExcludes(SubWord(s, table[i].0, table[i].1), table, i + 1, x);
    }
  }

  /** A text shorter than every remaining phrase of the table is left as it is. */
  lemma {:induction false} RewriteShort(s: string, table: seq<(string, string)>, i: nat)
    requires i <= |table|
    requires forall k :: i <= k < |table| ==> |s| < |table[k].0|
    ensures RewriteFrom(s, table, i) == s
    decreases |table| - i
  {
    if i < |table| {
      SubWordShort(s, table[i].0, table[i].1);
      RewriteShort(s, table, i + 1);
    }
  }

  /** A piece of a text without adjacent copies of `c` has none either. */
  lemma NoPairInPiece(r: string, s: string, c: char)
    requires NoPair(s, c) && OccursIn(r, s)
    ensures NoPair(r, c)
  {
    var i :| OccursAt(r, s, i);
    forall k | 0 <= k < |r| - 1 ensures !(r[k] == c && r[k + 1] == c) {
      assert r[k] == s[i + k] && r[k + 1] == s[i + k + 1];
    }
  }

  lemma NoCharInPiece(r: string, s: string, x: char)
    requires x !in s && OccursIn(r, s)
    ensures x !in r
  {
    var i :| OccursAt(r, s, i);
    forall k | 0 <= k < |r| ensures r[k] != x {
      assert r[k] == s[i + k];
    }
  }

  /**
   * The compressed text holds no tab and no two adjacent spaces, has no
   * whitespace at either end, and is never longer than the input.
   */
  lemma HeuristicShape(text: string)
    ensures var r := Heuristic(text);
      && '\t' !in r
      && NoPair(r, ' ')
      && (r == [] || (!IsSpace(r[0]) && !IsSpace(r[|r| - 1])))
      && |r| <= |text|
  {
    TablesWellFormed();
    var s1 := CollapseRuns(text, '\n', 3, 2);
    var s2 := CollapseRuns(s1, ' ', 2, 1);
    var s3 := ReplaceChar(s2, '\t', ' ');
    var s4 := Rewrite(s3, FillerTable(Fillers));
    var s5 := Rewrite(s4, Abbreviations);
    var s6 := CollapseRuns(s5, ' ', 2, 1);
    var r := Strip(s6);
    CollapseShorter(text, '\n', 3, 2);
    CollapseShorter(s1, ' ', 2, 1);
    RewriteShorter(s3, FillerTable(Fillers), 0);
    RewriteShorter(s4, Abbreviations, 0);
    CollapseShorter(s5, ' ', 2, 1);
    ReplaceCharSpec(s2, '\t', ' ', '\t');
    RewriteExcludes(s3, FillerTable(Fillers), 0, '\t');
    RewriteExcludes(s4, Abbreviations, 0, '\t');
    CollapseExcludes(s5, ' ', 2, 1, '\t');
    NoCharInPiece(r, s6, '\t');
    CollapseNoPair(s5, ' ');
    NoPairInPiece(r, s6, ' ');
  }

  /** A differing letter at offset `k` rules out a match at `i`. */
  lemma NoMatchAtChar(s: string, p: string, i: nat, k: nat)
    requires k < |p| && i + |p| <= |s| && LowerChar(s[i + k]) != p[k]
    ensures !MatchAt(s, p, i)
  {
    assert Lower(s[i..i + |p|])[k] == LowerChar(s[i + k]);
  }

  /** A text free of line breaks, spaces and tabs goes through the blank-handling steps unchanged. */
  lemma HeuristicNoBlanks(text: string)
    requires '\n' !in text && ' ' !in text && '\t' !in text
    ensures Heuristic(text) == Strip(Rewrite(Rewrite(text, FillerTable(Fillers)), Abbreviations))
  {
    TablesWellFormed();
    CollapseAbsent(text, '\n', 3, 2);
    CollapseAbsent(text, ' ', 2, 1);
    assert ReplaceChar(text, '\t', ' ') == text;
    var s4 := Rewrite(text, FillerTable(Fillers));
    RewriteExcludes(text, FillerTable(Fillers), 0, ' ');
    var s5 := Rewrite(s4, Abbreviations);
    RewriteExcludes(s4, Abbreviations, 0, ' ');
    CollapseAbsent(s5, ' ', 2, 1);
  }

  lemma ColumnNotInColumns()
    ensures SubWord("Columns", "column", "col") == "Columns"
  {
    var s := "Columns";
    assert !Boundary(s, 6) && !Boundary(s, 1);
    SubNoMatch(s, "column", "col", 0);
  }

  lemma ColumnsMatchesColumns()
    ensures SubWord("Columns", "columns", "cols") == "cols"
  {
    var s := "Columns";
    assert s[0..7] == s;
    assert Lower(s) == "columns";
    assert MatchAt(s, "columns", 0);
  }

  lemma ColumnMatchesColumn()
    ensures SubWord("column", "column", "col") == "col"
  {
    var s := "column";
    assert s[0..6] == s;
    assert Lower(s) == "column";
    assert MatchAt(s, "column", 0);
  }

  lemma AbbreviationsOnColumns(s: string)
    requires s == "Columns"
    ensures Rewrite(s, Abbreviations) == "cols"
  {
    AbbreviationsFirstOnColumns(s);
    AbbreviationsSecondOnColumns(s, "cols");
    AbbreviationsLong();
    RewriteShort("cols", Abbreviations, 2);
  }

  lemma AbbreviationsFirstOnColumns(s: string)
    requires s == "Columns"
    ensures RewriteFrom(s, Abbreviations, 0) == RewriteFrom(s, Abbreviations, 1)
  {
    assert Abbreviations[0] == ("column", "col");
    ColumnNotInColumns();
  }

  lemma AbbreviationsSecondOnColumns(s: string, c: string)
    requires s == "Columns" && c == "cols"
    ensures RewriteFrom(s, Abbreviations, 1) == RewriteFrom(c, Abbreviations, 2)
  {
    assert Abbreviations[1] == ("columns", "cols");
    ColumnsMatchesColumns();
  }

  lemma AbbreviationsOnColumn(s: string)
    requires s == "column"
    ensures Rewrite(s, Abbreviations) == "col"
  {
    var t := Abbreviations;
    assert t[0] == ("column", "col");
    ColumnMatchesColumn();
    AbbreviationsLong();
    RewriteShort("col", t, 1);
  }

  /** A single word no filler phrase fits in goes through the rewrites of the abbreviation table only. */
  lemma HeuristicOnWord(w: string)
    requires '\n' !in w && ' ' !in w && '\t' !in w && |w| < 9
    ensures Heuristic(w) == Strip(Rewrite(w, Abbreviations))
  {
    HeuristicNoBlanks(w);
    FillersSkipShort(w);
  }

  /** A text shorter than every filler phrase is left alone by the filler table. */
  lemma FillersSkipShort(w: string)
    requires |w| < 9
    ensures Rewrite(w, FillerTable(Fillers)) == w
  {
    FillersLong();
    RewriteShort(w, FillerTable(Fillers), 0);
  }

  /** A text that begins and ends with a lower-case letter is its own strip. */
  lemma StripWord(r: string, w: string)
    requires r == w && |w| > 0 && 'a' <= w[0] <= 'z' && 'a' <= w[|w| - 1] <= 'z'
    ensures Strip(r) == w
  {
    StripUnchanged(w);
  }

  lemma StripColumns(s: string)
    requires s == "Columns"
    ensures Strip(Rewrite(s, Abbreviations)) == "cols"
  {
    var r := Rewrite(s, Abbreviations);
    AbbreviationsOnColumns(s);
    StripWord(r, "cols");
  }

  lemma StripColumn(s: string)
    requires s == "column"
    ensures Strip(Rewrite(s, Abbreviations)) == "col"
  {
    var r := Rewrite(s, Abbreviations);
    AbbreviationsOnColumn(s);
    StripWord(r, "col");
  }

  /** Whole-word and case-insensitive: "Columns" is not rewritten as "column" but as "columns". */
  lemma ColumnsAbbreviated()
    ensures Heuristic("Columns") == "cols"
  {
    HeuristicOnWord("Columns");
    StripColumns("Columns");
  }

  /** ... and "column" as "col". */
  lemma ColumnAbbreviated()
    ensures Heuristic("column") == "col"
  {
    HeuristicOnWord("column");
    StripColumn("column");
  }

  lemma {:induction false} CollapseAbsentPrefix(a: string, b: string, c: char, minRun: nat, keep: nat)
    requires forall k :: 0 <= k < |a| ==> a[k] != c
    ensures CollapseRuns(a + b, c, minRun, keep) == a + CollapseRuns(b, c, minRun, keep)
    decreases |a|
  {
    if |a| == 0 {
      assert a + b == b;
    } else {
      var ab := a + b;
      var tail := a[1..];
      assert ab[0] == a[0] && ab[1..] == tail + b;
      CollapseAbsentPrefix(tail, b, c, minRun, keep);
      assert a == [a[0]] + tail;
    }
  }

  lemma {:induction false} RunLengthOf(n: nat, b: string, c: char)
    requires b == [] || b[0] != c
    ensures RunLength(Repeat(c, n) + b, c) == n
    decreases n
  {
    if n == 0 {
      assert Repeat(c, n) + b == b;
    } else {
      assert (Repeat(c, n) + b)[1..] == Repeat(c, n - 1) + b;
      RunLengthOf(n - 1, b, c);
    }
  }

  /** A run of `n` copies of `c` at the front is collapsed as a whole. */
  lemma CollapseRun(n: nat, b: string, c: char, minRun: nat, keep: nat)
    requires n > 0 && (b == [] || b[0] != c)
    ensures CollapseRuns(Repeat(c, n) + b, c, minRun, keep)
            == (if n >= minRun then Repeat(c, keep) else Repeat(c, n)) + CollapseRuns(b, c, minRun, keep)
  {
    var t := Repeat(c, n) + b;
    RunLengthOf(n, b, c);
    assert t[0] == c;
    assert t[..n] == Repeat(c, n) && t[n..] == b;
  }

  /** One run of `c` between text without `c` and text not starting with `c`. */
  lemma CollapseOneRun(a: string, n: nat, b: string, c: char, minRun: nat, keep: nat)
    requires (forall k :: 0 <= k < |a| ==> a[k] != c) && n > 0 && (b == [] || b[0] != c)
    ensures CollapseRuns(a + Repeat(c, n) + b, c, minRun, keep)
            == a + (if n >= minRun then Repeat(c, keep) else Repeat(c, n)) + CollapseRuns(b, c, minRun, keep)
  {
    var t := Repeat(c, n) + b;
    assert a + Repeat(c, n) + b == a + t;
    CollapseAbsentPrefix(a, t, c, minRun, keep);
    CollapseRun(n, b, c, minRun, keep);
  }

  /** A text cut at `i` and `j` into three pieces, the middle one a run of `c`. */
  lemma CutAround(s: string, i: nat, j: nat, c: char)
    requires i < j <= |s| && forall k :: i <= k < j ==> s[k] == c
    ensures s == s[..i] + Repeat(c, j - i) + s[j..]
  {
    assert s[i..j] == Repeat(c, j - i);
    assert s == s[..i] + s[i..j] + s[j..];
  }

  lemma NewlinesOnTail(rest: string)
    requires rest == "basically\nb"
    ensures CollapseRuns(rest, '\n', 3, 2) == rest
  {
    CutAround(rest, 9, 10, '\n');
    assert rest[..9] == "basically" && rest[10..] == "b";
    CollapseAbsent("b", '\n', 3, 2);
    CollapseOneRun("basically", 1, "b", '\n', 3, 2);
  }

  lemma NewlinesOnExample(s: string)
    requires s == "a\n\nbasically\nb"
    ensures CollapseRuns(s, '\n', 3, 2) == s
  {
    var rest := s[3..];
    assert rest == "basically\nb";
    NewlinesOnTail(rest);
    CutAround(s, 1, 3, '\n');
    assert s[..1] == "a";
    CollapseOneRun("a", 2, rest, '\n', 3, 2);
  }

  lemma NewlinesOnExample2()
    ensures CollapseRuns("a\n\n\nb", '\n', 3, 2) == "a\n\nb"
  {
    var nl := '\n';
    CollapseAbsent("b", nl, 3, 2);
    assert "a\n\n\nb" == "a" + Repeat(nl, 3) + "b";
    CollapseOneRun("a", 3, "b", nl, 3, 2);
  }

  lemma BasicallyOnExample(s: string, p: string)
    requires s == "a\n\nbasically\nb" && p == "basically"
    ensures SubWord(s, p, "") == "a\n\n\nb"
  {
    NoMatchAtChar(s, p, 0, 0);
    NoMatchAtChar(s, p, 1, 0);
    NoMatchAtChar(s, p, 2, 0);
    assert SubFrom(s, p, "", 2) == "\n" + SubFrom(s, p, "", 3);
    assert SubFrom(s, p, "", 1) == "\n" + SubFrom(s, p, "", 2);
    assert SubFrom(s, p, "", 0) == "a" + SubFrom(s, p, "", 1);
    BasicallyMatches(s, p);
  }

  lemma BasicallyMatches(s: string, p: string)
    requires s == "a\n\nbasically\nb" && p == "basically"
    ensures SubFrom(s, p, "", 3) == "\nb"
  {
    assert s[3..12] == p;
    assert Lower(p) == p;
    assert MatchAt(s, p, 3);
    SubNoMatch(s, p, "", 12);
    assert s[12..] == "\nb";
  }

  /** Of the filler phrases, only "basically" occurs in the example. */
  lemma FillersOnExample(s: string, u: string)
    requires s == "a\n\nbasically\nb" && u == "a\n\n\nb"
    ensures Rewrite(s, FillerTable(Fillers)) == u
  {
    var f := FillerTable(Fillers);
    FillersShortOnExample(s);
    FillersMissOnExample(s);
    FillersBasicallyOnExample(s, u);
    FillersLong();
    RewriteShort(u, f, 6);
  }

  lemma FillersBasicallyOnExample(s: string, u: string)
    requires s == "a\n\nbasically\nb" && u == "a\n\n\nb"
    ensures RewriteFrom(s, FillerTable(Fillers), 5) == RewriteFrom(u, FillerTable(Fillers), 6)
  {
    var f := FillerTable(Fillers);
    assert f[5] == ("basically", "");
    BasicallyOnExample(s, "basically");
  }

  lemma FillersShortOnExample(s: string)
    requires s == "a\n\nbasically\nb"
    ensures RewriteFrom(s, FillerTable(Fillers), 0) == RewriteFrom(s, FillerTable(Fillers), 3)
  {
    var f := FillerTable(Fillers);
    SubWordShort(s, Fillers[0], "");
    SubWordShort(s, Fillers[1], "");
    SubWordShort(s, Fillers[2], "");
    assert RewriteFrom(s, f, 0) == RewriteFrom(s, f, 1) == RewriteFrom(s, f, 2) == RewriteFrom(s, f, 3);
  }

  lemma FillersMissOnExample(s: string)
    requires s == "a\n\nbasically\nb"
    ensures RewriteFrom(s, FillerTable(Fillers), 3) == RewriteFrom(s, FillerTable(Fillers), 5)
  {
    var f := FillerTable(Fillers);
    var p3, p4 := Fillers[3], Fillers[4];
    assert p3 == "as we can see" && p4 == "in other words";
    NoMatchAtChar(s, p3, 0, 1);
    NoMatchAtChar(s, p3, 1, 0);
    SubNoMatch(s, p3, "", 0);
    NoMatchAtChar(s, p4, 0, 0);
    SubNoMatch(s, p4, "", 0);
    assert s[0..] == s;
    assert RewriteFrom(s, f, 3) == RewriteFrom(s, f, 4) == RewriteFrom(s, f, 5);
  }

  /** With only line breaks as blanks, the heuristic is the newline collapse followed by the rewrites. */
  lemma HeuristicNoSpaces(text: string)
    requires ' ' !in text && '\t' !in text
    ensures Heuristic(text) == Strip(Rewrite(Rewrite(CollapseRuns(text, '\n', 3, 2), FillerTable(Fillers)), Abbreviations))
  {
    TablesWellFormed();
    var s1 := CollapseRuns(text, '\n', 3, 2);
    CollapseExcludes(text, '\n', 3, 2, ' ');
    CollapseExcludes(text, '\n', 3, 2, '\t');
    CollapseAbsent(s1, ' ', 2, 1);
    assert ReplaceChar(s1, '\t', ' ') == s1;
    var s4 := Rewrite(s1, FillerTable(Fillers));
    RewriteExcludes(s1, FillerTable(Fillers), 0, ' ');
    var s5 := Rewrite(s4, Abbreviations);
    RewriteExcludes(s4, Abbreviations, 0, ' ');
    CollapseAbsent(s5, ' ', 2, 1);
  }

  lemma AbbreviationsOnExample(u: string)
    requires u == "a\n\n\nb"
    ensures Rewrite(u, Abbreviations) == u
  {
    RewriteShort(u, Abbreviations, 0);
  }

  lemma FirstPassRewrites(s: string)
    requires s == "a\n\nbasically\nb"
    ensures Rewrite(Rewrite(CollapseRuns(s, '\n', 3, 2), FillerTable(Fillers)), Abbreviations) == "a\n\n\nb"
  {
    NewlinesOnExample(s);
    FillersOnExample("a\n\nbasically\nb", "a\n\n\nb");
    AbbreviationsOnExample("a\n\n\nb");
  }

  lemma FirstPassStrip(s: string)
    requires s == "a\n\nbasically\nb"
    ensures Strip(Rewrite(Rewrite(CollapseRuns(s, '\n', 3, 2), FillerTable(Fillers)), Abbreviations)) == "a\n\n\nb"
  {
    var r := Rewrite(Rewrite(CollapseRuns(s, '\n', 3, 2), FillerTable(Fillers)), Abbreviations);
    FirstPassRewrites(s);
    StripWord(r, "a\n\n\nb");
  }

  /** The first pass removes the filler and leaves three line breaks in a row. */
  lemma FirstPassOnExample(s: string)
    requires s == "a\n\nbasically\nb"
    ensures Heuristic(s) == "a\n\n\nb"
  {
    HeuristicNoSpaces(s);
    FirstPassStrip(s);
  }

  lemma SecondPassRewrites(u: string)
    requires u == "a\n\n\nb"
    ensures Rewrite(Rewrite(CollapseRuns(u, '\n', 3, 2), FillerTable(Fillers)), Abbreviations) == "a\n\nb"
  {
    var v := "a\n\nb";
    NewlinesOnExample2();
    FillersLong();
    RewriteShort(v, FillerTable(Fillers), 0);
    AbbreviationsLong();
    RewriteShort(v, Abbreviations, 0);
  }

  lemma SecondPassStrip(u: string)
    requires u == "a\n\n\nb"
    ensures Strip(Rewrite(Rewrite(CollapseRuns(u, '\n', 3, 2), FillerTable(Fillers)), Abbreviations)) == "a\n\nb"
  {
    var r := Rewrite(Rewrite(CollapseRuns(u, '\n', 3, 2), FillerTable(Fillers)), Abbreviations);
    SecondPassRewrites(u);
    StripWord(r, "a\n\nb");
  }

  /** The second pass collapses those three line breaks to two. */
  lemma SecondPassOnExample(u: string)
    requires u == "a\n\n\nb"
    ensures Heuristic(u) == "a\n\nb"
  {
    HeuristicNoSpaces(u);
    SecondPassStrip(u);
  }

  /**
   * The heuristic is not idempotent: removing a filler can join two runs of
   * line breaks after the line-break collapse has already run, so a second pass
   * shortens the text again.
   */
  lemma HeuristicNotIdempotent()
    ensures Heuristic(Heuristic("a\n\nbasically\nb")) != Heuristic("a\n\nbasically\nb")
  {
    FirstPassOnExample("a\n\nbasically\nb");
    SecondPassOnExample(Heuristic("a\n\nbasically\nb"));
  }

  // ---------------------------------------------------------------------------
  // The client

  /** What the remote service answered, taken as given: the request itself is not part of this model. */
  datatype RemoteReply =
    | Ok(compressed: Option<string>, text: Option<string>)   // status 200 and the fields of its JSON body
    | HttpError(status: int)                                  // any other status
    | RequestFailed(message: string)                          // the request raised

  /** The result dict of `compress` (timings and percentages left out). */
  datatype CompressResult = CompressResult(
    compressedText: string,
    originalLength: nat,
    compressedLength: nat,
    inputTokens: nat,
    outputTokens: nat,
    localFallback: bool,          // carries `"method": "local_fallback"`
    apiError: Option<string>)

  datatype ClientStats = ClientStats(
    totalRequests: nat, totalInputTokens: nat, totalOutputTokens: nat, totalTokensSaved: int)

  /** The fallback's result for a text. */
  function FallbackResult(text: string): (r: CompressResult)
    ensures r.compressedText == Heuristic(text) && r.localFallback && r.apiError == None
    ensures r.inputTokens == |text| / 4 && r.outputTokens == |r.compressedText| / 4
    ensures r.outputTokens <= r.inputTokens
  {
    HeuristicShape(text);
    var c := Heuristic(text);
    CompressResult(c, |text|, |c|, |text| / 4, |c| / 4, true, None)
  }

  lemma FallbackResultOf(text: string, c: string)
    requires c == Heuristic(text)
    ensures FallbackResult(text) == CompressResult(c, |text|, |c|, |text| / 4, |c| / 4, true, None)
  {
  }

  /** `compressed`, else `text`, else the input, as the status-200 branch picks it. */
  function PickCompressed(reply: RemoteReply, input: string): string
    requires reply.Ok?
  {
    if reply.compressed.Some? then reply.compressed.value
    else if reply.text.Some? then reply.text.value
    else input
  }

  /**
   * The result of `compress` for a client with the given key: without a key no
   * request is made and the fallback answers; with one, the service's reply
   * decides, and a failed request falls back with the error recorded.
   */
  function CompressOutcome(apiKey: string, text: string, reply: RemoteReply): (r: CompressResult)
    ensures apiKey == "" ==> r == FallbackResult(text)
    ensures apiKey != "" && reply.HttpError? ==>
      r == FallbackResult(text).(apiError := Some("HTTP " + IntToString(reply.status)))
    ensures apiKey != "" && reply.RequestFailed? ==> r == FallbackResult(text).(apiError := Some(reply.message))
    ensures apiKey != "" && reply.Ok? ==>
      && r.compressedText == PickCompressed(reply, text) && !r.localFallback && r.apiError == None
    ensures r.inputTokens == |text| / 4 && r.outputTokens == |r.compressedText| / 4
  {
    if apiKey == "" then FallbackResult(text)
    else
      match reply
      case Ok(_, _) =>
        var c := PickCompressed(reply, text);
        CompressResult(c, |text|, |c|, |text| / 4, |c| / 4, false, None)
      case HttpError(status) => FallbackResult(text).(apiError := Some("HTTP " + IntToString(status)))
      case RequestFailed(message) => FallbackResult(text).(apiError := Some(message))
  }

  class ScaleDownClient {
    const apiKey: string
    var totalInputTokens: nat
    var totalOutputTokens: nat
    var totalRequests: nat

    constructor (apiKey: string)
      ensures this.apiKey == apiKey
      ensures totalInputTokens == 0 && totalOutputTokens == 0 && totalRequests == 0
    {
      this.apiKey := apiKey;
      totalInputTokens := 0;
      totalOutputTokens := 0;
      totalRequests := 0;
    }

    /** `_heuristic_compress`, rebinding the text through each rewrite in turn. */
    static method HeuristicCompress(text: string) returns (result: string)
      ensures result == Heuristic(text)
    {
      result := CollapseRuns(text, '\n', 3, 2);
      result := CollapseRuns(result, ' ', 2, 1);
      result := ReplaceChar(result, '\t', ' ');
      var fillers := FillerTable(Fillers);
      ghost var afterSpaces := result;
      for i := 0 to |fillers|
        invariant RewriteFrom(result, fillers, i) == Rewrite(afterSpaces, fillers)
      {
        result := SubWord(result, fillers[i].0, fillers[i].1);
      }
      ghost var afterFillers := result;
      for i := 0 to |Abbreviations|
        invariant RewriteFrom(result, Abbreviations, i) == Rewrite(afterFillers, Abbreviations)
      {
        result := SubWord(result, Abbreviations[i].0, Abbreviations[i].1);
      }
      result := CollapseRuns(result, ' ', 2, 1);
      result := Strip(result);
    }

    /** One more request, with its token counts added to the totals. */
    method Count(inputTokens: nat, outputTokens: nat)
      modifies this
      ensures totalRequests == old(totalRequests) + 1
      ensures totalInputTokens == old(totalInputTokens) + inputTokens
      ensures totalOutputTokens == old(totalOutputTokens) + outputTokens
    {
      totalInputTokens, totalOutputTokens, totalRequests :=
        totalInputTokens + inputTokens, totalOutputTokens + outputTokens, totalRequests + 1;
    }

    /**
     * `_fallback_compress`: one more request, both token counts added to the
     * totals, and the output total kept at or below the input total.
     */
    method FallbackCompress(text: string) returns (r: CompressResult)
      modifies this
      ensures r == FallbackResult(text)
      ensures totalRequests == old(totalRequests) + 1
      ensures totalInputTokens == old(totalInputTokens) + r.inputTokens
      ensures totalOutputTokens == old(totalOutputTokens) + r.outputTokens
      ensures old(totalOutputTokens) <= old(totalInputTokens) ==> totalOutputTokens <= totalInputTokens
    {
      var compressed := HeuristicCompress(text);
      r := CompressResult(compressed, |text|, |compressed|, |text| / 4, |compressed| / 4, true, None);
      FallbackResultOf(text, compressed);
      Count(r.inputTokens, r.outputTokens);
    }

    /** `compress`: one more request, its result as `CompressOutcome` says, and both token counts added to the totals. */
    method Compress(text: string, reply: RemoteReply) returns (r: CompressResult)
      modifies this
      ensures r == CompressOutcome(apiKey, text, reply)
      ensures totalRequests == old(totalRequests) + 1
      ensures totalInputTokens == old(totalInputTokens) + r.inputTokens
      ensures totalOutputTokens == old(totalOutputTokens) + r.outputTokens
      ensures r.localFallback && old(totalOutputTokens) <= old(totalInputTokens) ==> totalOutputTokens <= totalInputTokens
    {
      if apiKey == "" {
        r := FallbackCompress(text);
        return;
      }
      match reply
      case Ok(_, _) =>
        var compressed := PickCompressed(reply, text);
        var inputTokens := |text| / 4;
        var outputTokens := |compressed| / 4;
        Count(inputTokens, outputTokens);
        r := CompressResult(compressed, |text|, |compressed|, inputTokens, outputTokens, false, None);
      case HttpError(status) =>
        r := FallbackCompress(text);
        r := r.(apiError := Some("HTTP " + IntToString(status)));
      case RequestFailed(message) =>
        r := FallbackCompress(text);
        r := r.(apiError := Some(message));
    }

    /** `get_stats`: the counters as they are, and the saving as their difference. */
    function Stats(): (s: ClientStats)
      reads this
      ensures s.totalRequests == totalRequests
      ensures s.totalInputTokens == totalInputTokens && s.totalOutputTokens == totalOutputTokens
      ensures s.totalTokensSaved == s.totalInputTokens - s.totalOutputTokens
    {
      ClientStats(totalRequests, totalInputTokens, totalOutputTokens, totalInputTokens - totalOutputTokens)
    }
  }
}

/** The two pure helpers of the command line front end: splitting a comma-separated option
    value, and `format_context`, which formats the numbered source lines around a finding.
    Nothing in the command line front end calls `format_context`. */
module Cli {
  import opened Wrappers
  import opened Text

  // ---------------------------------------------------------------------------------------
  // Comma-separated option values

  /** Stripping keeps a character out if the input had none of it. */
  lemma {:induction false} StripKeepsOut(parts: seq<string>, c: char)
    requires forall k :: 0 <= k < |parts| ==> c !in parts[k]
    ensures forall k :: 0 <= k < |StrippedNonEmpty(parts)| ==> c !in StrippedNonEmpty(parts)[k]
  {
    if parts != [] {
      var p := parts[0];
      var t := Strip(p);
      var n := StripOffset(p);
      assert forall j :: 0 <= j < |t| ==> t[j] == p[n + j];
      StripKeepsOut(parts[1..], c);
    }
  }

  /** The values of an `--include` or `--exclude` option: nothing for an absent or empty
      option, otherwise the comma-separated pieces, trimmed, empty ones dropped. */
  function CommaList(value: Option<string>): (r: seq<string>)
    ensures value == None || value == Some("") ==> r == []
    ensures forall k :: 0 <= k < |r| ==>
      Trimmed(r[k]) && ',' !in r[k]
  {
    if value.None? || value.value == "" then []
    else
      var parts := Split(value.value, ',');
      StripKeepsOut(parts, ',');
      StrippedNonEmpty(parts)
  }

  /** The pieces come back in input order: joining clean values with commas and splitting
      the result again gives the same values. */
  lemma CommaListJoin(values: seq<string>)
    requires forall k :: 0 <= k < |values| ==>
      Trimmed(values[k]) && ',' !in values[k]
    ensures CommaList(Some(Join(values, ","))) == values
  {
    if values != [] {
      assert Join(values, ",") != "" by {
        if |values| > 1 {
          assert Join(values, ",") == values[0] + "," + Join(values[1..], ",");
        }
      }
      SplitJoin(values, ',');
      StrippedUnchanged(values);
    }
  }

  // ---------------------------------------------------------------------------------------
  // Context snippet (`format_context`)

  /** The marker in front of the finding's own line. */
  const Arrow: string := "\U{2192} "

  /** The first index shown: `max(0, lineno - 1 - context)`. */
  function WindowStart(lineno: int, context: int): nat {
    if lineno - 1 - context < 0 then 0 else lineno - 1 - context
  }

  /** One past the last index shown: `min(len(lines), lineno + context)`. */
  function WindowEnd(lines: seq<string>, lineno: int, context: int): int {
    if |lines| < lineno + context then |lines| else lineno + context
  }

  /** The row for index `i`: the marker or two spaces, the one-based line number
      right-aligned in four columns, a bar, and the line without trailing whitespace. */
  function Row(lines: seq<string>, lineno: int, i: nat): string
    requires i < |lines|
  {
    (if i == lineno - 1 then Arrow else "  ") + PadLeft(NatToString(i + 1), 4) + " | " + RStripChars(lines[i], Whitespace)
  }

  /** The rows of the window, in increasing index order. */
  function Rows(lines: seq<string>, lineno: int, context: int): (r: seq<string>)
    ensures |r| == if WindowStart(lineno, context) < WindowEnd(lines, lineno, context)
                   then WindowEnd(lines, lineno, context) - WindowStart(lineno, context) else 0
  {
    var start, end := WindowStart(lineno, context), WindowEnd(lines, lineno, context);
    if start < end then seq(end - start, j requires 0 <= j < end - start => Row(lines, lineno, start + j))
    else []
  }

  /** `format_context`: builds the rows one by one and joins them with newlines. */
  method FormatContext(lines: seq<string>, lineno: int, context: int) returns (s: string)
    ensures s == Join(Rows(lines, lineno, context), "\n")
  {
    var start := WindowStart(lineno, context);
    var end := WindowEnd(lines, lineno, context);
    var snippet: seq<string> := [];
    var i := start;
    while i < end
      invariant start <= i && (start < end ==> i <= end)
      invariant snippet == if start < end then Rows(lines, lineno, context)[..i - start] else []
    {
      RowsPrefixStep(lines, lineno, context, i);
      var row := Row(lines, lineno, i);
      snippet := snippet + [row];
      i := i + 1;
    }
    assert start < end ==> snippet == Rows(lines, lineno, context);
    s := Join(snippet, "\n");
  }

  lemma RowsPrefixStep(lines: seq<string>, lineno: int, context: int, i: int)
    requires WindowStart(lineno, context) <= i < WindowEnd(lines, lineno, context)
    ensures i < |lines|
    ensures var rows, start := Rows(lines, lineno, context), WindowStart(lineno, context);
      rows[..i + 1 - start] == rows[..i - start] + [Row(lines, lineno, i)]
  {
    var rows, start := Rows(lines, lineno, context), WindowStart(lineno, context);
    RowsAt(lines, lineno, context, i - start);
    Snoc(rows, i - start);
  }

  lemma Snoc<T>(s: seq<T>, k: nat)
    requires k < |s|
    ensures s[..k + 1] == s[..k] + [s[k]]
  {
  }

  /** Only the finding's own line carries the marker; every other row starts with two
      spaces. */
  lemma RowMarked(lines: seq<string>, lineno: int, i: nat)
    requires i < |lines|
    ensures StartsWith(Row(lines, lineno, i), Arrow) <==> i == lineno - 1
    ensures i != lineno - 1 ==> StartsWith(Row(lines, lineno, i), "  ")
  {
    var row := Row(lines, lineno, i);
    var pre := if i == lineno - 1 then Arrow else "  ";
    assert row == pre + (PadLeft(NatToString(i + 1), 4) + " | " + RStripChars(lines[i], Whitespace));
    assert row[..2] == pre;
    if i != lineno - 1 {
      assert row[0] != Arrow[0];
    }
  }

  /** Reading the line number back: after the two-character prefix, the row holds the
      one-based number padded to at least four columns, then the bar and the stripped text,
      which has no trailing whitespace. */
  lemma RowLayout(lines: seq<string>, lineno: int, i: nat)
    requires i < |lines|
    ensures var row, num := Row(lines, lineno, i), PadLeft(NatToString(i + 1), 4);
      && |num| >= 4
      && row[2..] == num + " | " + RStripChars(lines[i], Whitespace)
      && EndsWith(num, NatToString(i + 1))
      && (RStripChars(lines[i], Whitespace) == "" || row[|row| - 1] !in Whitespace)
  {
    var row := Row(lines, lineno, i);
    var pre := if i == lineno - 1 then Arrow else "  ";
    assert row == pre + (PadLeft(NatToString(i + 1), 4) + " | " + RStripChars(lines[i], Whitespace));
  }

  /** When the finding's line exists and the context is not negative, exactly one row of the
      snippet carries the marker. */
  lemma OneMarkedRow(lines: seq<string>, lineno: int, context: int)
    requires 1 <= lineno <= |lines| && 0 <= context
    ensures var rows := Rows(lines, lineno, context);
      exists j :: 0 <= j < |rows| && StartsWith(rows[j], Arrow)
        && forall k :: 0 <= k < |rows| && StartsWith(rows[k], Arrow) ==> k == j
  {
    var rows := Rows(lines, lineno, context);
    var start := WindowStart(lineno, context);
    var j: nat := lineno - 1 - start;
    assert start <= lineno - 1 < WindowEnd(lines, lineno, context);
    RowsAt(lines, lineno, context, j);
    RowMarked(lines, lineno, lineno - 1);
    assert StartsWith(rows[j], Arrow);
    forall k | 0 <= k < |rows| && StartsWith(rows[k], Arrow) ensures k == j {
      RowsAt(lines, lineno, context, k);
      RowMarked(lines, lineno, start + k);
      assert start + k == lineno - 1;
    }
  }

  lemma RowsAt(lines: seq<string>, lineno: int, context: int, k: nat)
    requires k < |Rows(lines, lineno, context)|
    ensures WindowStart(lineno, context) + k < |lines|
    ensures Rows(lines, lineno, context)[k] == Row(lines, lineno, WindowStart(lineno, context) + k)
  {
  }

  /** An empty window gives the empty snippet. */
  lemma EmptyWindow(lines: seq<string>, lineno: int, context: int)
    requires WindowEnd(lines, lineno, context) <= WindowStart(lineno, context)
    ensures Join(Rows(lines, lineno, context), "\n") == ""
  {
  }

  /** The padded number of a row holds only spaces and digits. */
  lemma PaddedNumberChars(n: nat)
    ensures forall c :: c in PadLeft(NatToString(n), 4) ==> c == ' ' || '0' <= c <= '9'
  {
    var digits := NatToString(n);
    var num := PadLeft(digits, 4);
    forall j | 0 <= j < |num| ensures num[j] == ' ' || '0' <= num[j] <= '9' {
      if j >= |num| - |digits| {
        assert num[j] == digits[j - (|num| - |digits|)];
      }
    }
  }

  lemma RowWithoutNewline(lines: seq<string>, lineno: int, i: nat)
    requires i < |lines| && '\n' !in RStripChars(lines[i], Whitespace)
    ensures '\n' !in Row(lines, lineno, i)
  {
    PaddedNumberChars(i + 1);
    var pre := if i == lineno - 1 then Arrow else "  ";
    var num := PadLeft(NatToString(i + 1), 4);
    assert Row(lines, lineno, i) == pre + num + " | " + RStripChars(lines[i], Whitespace);
  }

  /** The snippet has one line per row: when the stripped source lines hold no newline,
      splitting the snippet at newlines gives back the rows. */
  lemma SnippetLines(lines: seq<string>, lineno: int, context: int)
    requires forall i :: 0 <= i < |lines| ==> '\n' !in RStripChars(lines[i], Whitespace)
    requires WindowStart(lineno, context) < WindowEnd(lines, lineno, context)
    ensures Split(Join(Rows(lines, lineno, context), "\n"), '\n') == Rows(lines, lineno, context)
  {
    var rows := Rows(lines, lineno, context);
    forall k | 0 <= k < |rows| ensures '\n' !in rows[k] {
      RowWithoutNewline(lines, lineno, WindowStart(lineno, context) + k);
    }
    SplitJoin(rows, '\n');
  }
}

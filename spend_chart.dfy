/**
 * The spend chart: each category's withdrawals as a share of all the
 * categories' withdrawals, floored to a multiple of ten percent, drawn as
 * eleven rows of bars (100 down to 0), a dashed axis, and the category names
 * written vertically underneath.
 */
module SpendChart {
  import opened Text
  import opened Ledger

  const ChartTitle := "Percentage spent by category"

  /** Python's `sum` of a list of numbers, from the front. */
  function IntSum(xs: seq<int>): int
  {
    if xs == [] then 0 else IntSum(xs[..|xs| - 1]) + xs[|xs| - 1]
  }

  /** The spend of each ledger, in the order given. */
  function Spends(ledgers: seq<seq<Entry>>): seq<int>
  {
    seq(|ledgers|, i requires 0 <= i < |ledgers| => Spend(ledgers[i]))
  }

  /** Python's floor division `x // y` for y != 0 (rounds toward minus infinity). */
  function FloorDiv(x: int, y: int): (q: int)
    requires y != 0
    ensures y > 0 ==> q * y <= x < q * y + y
    ensures y < 0 ==> q * y >= x > q * y + y
  {
    if y > 0 then x / y else (-x) / (-y)
  }

  /**
   * `int(((spend / total) * 10) // 1) * 10`, computed exactly: ten times the
   * floor of 10 * spend / total.
   */
  function Percent(spend: int, total: int): (p: int)
    requires total != 0
    ensures p % 10 == 0
    ensures total > 0 ==> p / 10 * total <= 10 * spend < p / 10 * total + total
    ensures total < 0 ==> p / 10 * total >= 10 * spend > p / 10 * total + total
  {
    10 * FloorDiv(10 * spend, total)
  }

  function Percentages(spends: seq<int>): seq<int>
    requires IntSum(spends) != 0
  {
    seq(|spends|, i requires 0 <= i < |spends| => Percent(spends[i], IntSum(spends)))
  }

  /** A sum of amounts that are all <= 0 is at most each of them. */
  lemma {:induction false} IntSumOfNonPositive(xs: seq<int>)
    requires forall i :: 0 <= i < |xs| ==> xs[i] <= 0
    ensures IntSum(xs) <= 0
    ensures forall i :: 0 <= i < |xs| ==> IntSum(xs) <= xs[i]
  {
    if xs != [] {
      IntSumOfNonPositive(xs[..|xs| - 1]);
    }
  }

  /**
   * Every percentage is one of 0, 10, ..., 100 when the spends are the
   * (non-positive) withdrawal totals and their sum is not zero.
   */
  lemma PercentagesInRange(spends: seq<int>)
    requires forall i :: 0 <= i < |spends| ==> spends[i] <= 0
    requires IntSum(spends) != 0
    ensures forall i :: 0 <= i < |spends| ==>
      0 <= Percentages(spends)[i] <= 100 && Percentages(spends)[i] % 10 == 0
  {
    IntSumOfNonPositive(spends);
    forall i | 0 <= i < |spends|
      ensures 0 <= Percentages(spends)[i] <= 100 && Percentages(spends)[i] % 10 == 0
    {
      PercentInRange(spends[i], IntSum(spends));
    }
  }

  lemma PercentInRange(spend: int, total: int)
    requires total < 0 && total <= spend <= 0
    ensures 0 <= Percent(spend, total) <= 100 && Percent(spend, total) % 10 == 0
  {
    assert Percent(spend, total) == 10 * ((-10 * spend) / (-total));
    ShareBounds(-10 * spend, -total);
  }

  /** 0 <= x <= 10 * d gives a quotient between 0 and 10. */
  lemma ShareBounds(x: int, d: int)
    requires d > 0 && 0 <= x <= 10 * d
    ensures 0 <= x / d <= 10
  {
    DivMonotone(x, 10 * d, d);
    assert (10 * d) / d == 10;
  }

  /** The category that spent more gets at least as tall a bar. */
  lemma PercentMonotone(spends: seq<int>, i: nat, j: nat)
    requires IntSum(spends) != 0
    requires forall k :: 0 <= k < |spends| ==> spends[k] <= 0
    requires i < |spends| && j < |spends|
    requires spends[i] <= spends[j]
    ensures Percentages(spends)[i] >= Percentages(spends)[j]
  {
    IntSumOfNonPositive(spends);
    var d := -IntSum(spends);
    DivMonotone(-10 * spends[j], -10 * spends[i], d);
  }

  lemma DivMonotone(x: int, y: int, d: int)
    requires d > 0 && x <= y
    ensures x / d <= y / d
  {
    var q, q' := x / d, y / d;
    assert q * d <= x;
    assert y < (q' + 1) * d;
    assert (q - q' - 1) * d < 0;
    NegativeFactor(q - q' - 1, d);
  }

  lemma NegativeFactor(a: int, d: int)
    requires d > 0 && a * d < 0
    ensures a < 0
  {
  }

  /** A category that withdrew nothing gets 0 percent. */
  lemma NoSpendNoBar(spends: seq<int>, i: nat)
    requires IntSum(spends) != 0
    requires i < |spends| && spends[i] == 0
    ensures Percentages(spends)[i] == 0
  {
  }

  /** A category that did all the spending gets 100 percent. */
  lemma AllSpendFullBar(spends: seq<int>, i: nat)
    requires IntSum(spends) != 0
    requires i < |spends| && spends[i] == IntSum(spends)
    ensures Percentages(spends)[i] == 100
  {
    var t := IntSum(spends);
    assert Percentages(spends)[i] == 10 * FloorDiv(10 * t, t);
    if t > 0 {
      ExactQuotient(10 * t, t, 10);
    } else {
      ExactQuotient(-(10 * t), -t, 10);
    }
  }

  lemma ExactQuotient(x: int, d: int, m: int)
    requires d > 0 && x == m * d
    ensures x / d == m
  {
    var q := x / d;
    assert q * d <= x < q * d + d;
    assert (q - m - 1) * d < 0;
    NegativeFactor(q - m - 1, d);
    assert (m - q - 1) * d < 0;
    NegativeFactor(m - q - 1, d);
  }

  // ---- the chart lines ----

  /** One bar cell: `" o "` when the percentage reaches the row's value. */
  function BarCell(percent: int, value: int): string
  {
    if percent >= value then " o " else "   "
  }

  function BarCells(percentages: seq<int>, value: int): (r: string)
    ensures |r| == 3 * |percentages|
  {
    if percentages == [] then ""
    else BarCells(percentages[..|percentages| - 1], value) + BarCell(percentages[|percentages| - 1], value)
  }

  /** `str(value).rjust(3) + '|'`, the cells, and one trailing space. */
  function BarLine(percentages: seq<int>, value: nat): string
  {
    RJust(NatDigits(value), 3) + "|" + BarCells(percentages, value) + " "
  }

  /** The value a bar row stands for: 100 on the first row down to 0 on the eleventh. */
  function RowValue(row: nat): nat
    requires row < 11
  {
    100 - 10 * row
  }

  function BarLines(percentages: seq<int>): seq<string>
  {
    seq(11, row requires 0 <= row < 11 => BarLine(percentages, RowValue(row)))
  }

  function DashLine(count: nat): string
  {
    "    " + Repeat('-', 3 * count + 1)
  }

  /** `max(len(name) for name in names)`; Python refuses an empty list. */
  function MaxLength(names: seq<string>): (m: nat)
    requires |names| > 0
    ensures forall i :: 0 <= i < |names| ==> |names[i]| <= m
    ensures exists i :: 0 <= i < |names| && |names[i]| == m
  {
    if |names| == 1 then |names[0]|
    else
      var m := MaxLength(names[..|names| - 1]);
      if |names[|names| - 1]| > m then |names[|names| - 1]| else m
  }

  /** Every name `ljust`-ed to the longest. */
  function PadNames(names: seq<string>): (padded: seq<string>)
    requires |names| > 0
    ensures |padded| == |names|
    ensures forall i :: 0 <= i < |names| ==> |padded[i]| == MaxLength(names)
  {
    seq(|names|, i requires 0 <= i < |names| => LJust(names[i], MaxLength(names)))
  }

  /** Character k of every padded name, each centred in three columns. */
  function NameCells(padded: seq<string>, k: nat): (r: string)
    requires forall i :: 0 <= i < |padded| ==> k < |padded[i]|
    ensures |r| == 3 * |padded|
  {
    if padded == [] then ""
    else NameCells(padded[..|padded| - 1], k) + Center3(padded[|padded| - 1][k])
  }

  function NameLine(padded: seq<string>, k: nat): string
    requires forall i :: 0 <= i < |padded| ==> k < |padded[i]|
  {
    "    " + NameCells(padded, k) + " "
  }

  /** The footer rows: the transposition `zip(*padded)`, one row per column. */
  function NameLines(names: seq<string>): seq<string>
    requires |names| > 0
  {
    var padded := PadNames(names);
    seq(MaxLength(names), k requires 0 <= k < MaxLength(names) => NameLine(padded, k))
  }

  /** Every line of the chart, in order, without their newlines. */
  function ChartLines(names: seq<string>, percentages: seq<int>): seq<string>
    requires |names| > 0
  {
    [ChartTitle] + BarLines(percentages) + [DashLine(|names|)] + NameLines(names)
  }

  /**
   * What `create_spend_chart` returns for categories with these names and
   * ledgers: every line with its newline, then trailing newlines stripped.
   */
  function ChartText(names: seq<string>, ledgers: seq<seq<Entry>>): string
    requires |names| == |ledgers| > 0
    requires IntSum(Spends(ledgers)) != 0
  {
    RStripNewlines(Terminated(ChartLines(names, Percentages(Spends(ledgers)))))
  }

  // ---- the layout of the lines ----

  lemma {:induction false} BarCellAt(percentages: seq<int>, value: int, i: nat)
    requires i < |percentages|
    ensures BarCells(percentages, value)[3 * i..3 * i + 3] == BarCell(percentages[i], value)
  {
    var n := |percentages|;
    if i < n - 1 {
      BarCellAt(percentages[..n - 1], value, i);
    }
  }

  lemma {:induction false} NameCellAt(padded: seq<string>, k: nat, i: nat)
    requires forall j :: 0 <= j < |padded| ==> k < |padded[j]|
    requires i < |padded|
    ensures NameCells(padded, k)[3 * i..3 * i + 3] == Center3(padded[i][k])
  {
    var n := |padded|;
    if i < n - 1 {
      NameCellAt(padded[..n - 1], k, i);
    }
  }

  /** The row digits of a bar line takes exactly three columns. */
  lemma LabelWidth(value: nat)
    requires value <= 100
    ensures |RJust(NatDigits(value), 3)| == 3
  {
    DigitsLength(value, 3);
    assert Pow10(3) == 1000;
  }

  /**
   * Bar row r (0 at the top) is labelled with its value 100 - 10r, and its
   * cell for category i, columns 4 + 3i to 6 + 3i, is `" o "` exactly when
   * that category's percentage reaches the value, blank otherwise.
   */
  lemma BarMarking(percentages: seq<int>, row: nat, i: nat)
    requires row < 11 && i < |percentages|
    ensures var line := BarLines(percentages)[row];
      && line[..4] == RJust(NatDigits(RowValue(row)), 3) + "|"
      && line[4 + 3 * i..7 + 3 * i] == (if percentages[i] >= RowValue(row) then " o " else "   ")
  {
    var value := RowValue(row);
    LabelWidth(value);
    BarCellAt(percentages, value, i);
    var line := BarLine(percentages, value);
    var cells := BarCells(percentages, value);
    assert line == (RJust(NatDigits(value), 3) + "|") + cells + " ";
    assert line[4 + 3 * i..7 + 3 * i] == cells[3 * i..3 * i + 3];
  }

  /**
   * Each bar is one unbroken run from its top down to the 0 row: a cell
   * marked on some row is marked on every row below it, and every category
   * with a percentage of at least 0 marks the 0 row.
   */
  lemma BarIsContiguous(percentages: seq<int>, row: nat, below: nat, i: nat)
    requires row <= below < 11 && i < |percentages|
    requires 0 <= percentages[i]
    ensures BarLines(percentages)[10][4 + 3 * i..7 + 3 * i] == " o "
    ensures BarLines(percentages)[row][4 + 3 * i..7 + 3 * i] == " o "
        ==> BarLines(percentages)[below][4 + 3 * i..7 + 3 * i] == " o "
  {
    BarMarking(percentages, 10, i);
    BarMarking(percentages, row, i);
    BarMarking(percentages, below, i);
  }

  /**
   * Footer row k, column of category i, holds character k of that name
   * centred between two spaces, or a blank once the name has ended.
   */
  lemma NameColumn(names: seq<string>, k: nat, i: nat)
    requires |names| > 0
    requires k < MaxLength(names) && i < |names|
    ensures var line := NameLines(names)[k];
      && line[..4] == "    "
      && line[4 + 3 * i..7 + 3 * i] == [' ', if k < |names[i]| then names[i][k] else ' ', ' ']
  {
    NameLineCell(PadNames(names), k, i);
    PaddedChar(names, k, i);
  }

  lemma NameLineCell(padded: seq<string>, k: nat, i: nat)
    requires forall j :: 0 <= j < |padded| ==> k < |padded[j]|
    requires i < |padded|
    ensures NameLine(padded, k)[..4] == "    "
    ensures NameLine(padded, k)[4 + 3 * i..7 + 3 * i] == Center3(padded[i][k])
  {
    NameCellAt(padded, k, i);
    var cells := NameCells(padded, k);
    assert NameLine(padded, k)[4 + 3 * i..7 + 3 * i] == cells[3 * i..3 * i + 3];
  }

  /** Character k of a padded name is the name's own, or a space past its end. */
  lemma PaddedChar(names: seq<string>, k: nat, i: nat)
    requires |names| > 0
    requires k < MaxLength(names) && i < |names|
    ensures PadNames(names)[i][k] == if k < |names[i]| then names[i][k] else ' '
  {
    var padded := PadNames(names)[i];
    assert padded == LJust(names[i], MaxLength(names));
    LJustShape(names[i], MaxLength(names));
    if k < |names[i]| {
      assert padded[k] == padded[..|names[i]|][k];
    }
  }

  /**
   * The chart has a title, 11 bar rows, the dashed axis and one footer row
   * per character of the longest name; every line after the title is
   * 3n + 5 wide for n categories.
   */
  lemma ChartLayout(names: seq<string>, percentages: seq<int>)
    requires |names| == |percentages| > 0
    ensures var lines := ChartLines(names, percentages);
      && |lines| == 13 + MaxLength(names)
      && lines[0] == ChartTitle
      && lines[12] == DashLine(|names|)
      && forall j :: 1 <= j < |lines| ==> |lines[j]| == 3 * |names| + 5
  {
    var lines := ChartLines(names, percentages);
    var n := |names|;
    forall j | 1 <= j < |lines|
      ensures |lines[j]| == 3 * n + 5
    {
      if j <= 11 {
        assert lines[j] == BarLines(percentages)[j - 1];
        LabelWidth(RowValue(j - 1));
      } else if j > 12 {
        assert lines[j] == NameLines(names)[j - 13];
      }
    }
  }

  lemma NoNewlineInChartLines(names: seq<string>, percentages: seq<int>)
    requires |names| > 0
    requires forall i :: 0 <= i < |names| ==> '\n' !in names[i]
    ensures forall j :: 0 <= j < |ChartLines(names, percentages)| ==> '\n' !in ChartLines(names, percentages)[j]
  {
    var lines := ChartLines(names, percentages);
    forall j | 0 <= j < |lines|
      ensures '\n' !in lines[j]
    {
      if j == 0 {
        assert '\n' !in ChartTitle;
      } else if j <= 11 {
        BarLineNoNewline(percentages, RowValue(j - 1));
        assert lines[j] == BarLines(percentages)[j - 1];
      } else if j == 12 {
        assert lines[j] == DashLine(|names|);
        DashLineNoNewline(|names|);
      } else {
        assert lines[j] == NameLines(names)[j - 13];
        NameLineNoNewline(names, j - 13);
      }
    }
  }

  lemma BarLineNoNewline(percentages: seq<int>, value: nat)
    ensures '\n' !in BarLine(percentages, value)
  {
    var digits := NatDigits(value);
    assert '\n' !in digits by {
      forall c | 0 <= c < |digits| ensures digits[c] != '\n' {
        assert IsDigit(digits[c]);
      }
    }
    assert '\n' !in RJust(digits, 3) by {
      RJustShape(digits, 3);
      var r := RJust(digits, 3);
      forall c | 0 <= c < |r| ensures r[c] != '\n' {
        if c >= |r| - |digits| {
          assert r[c] == r[|r| - |digits|..][c - (|r| - |digits|)];
        }
      }
    }
    BarCellsNoNewline(percentages, value);
  }

  lemma {:induction false} BarCellsNoNewline(percentages: seq<int>, value: int)
    ensures '\n' !in BarCells(percentages, value)
  {
    if percentages != [] {
      BarCellsNoNewline(percentages[..|percentages| - 1], value);
    }
  }

  lemma {:induction false} DashLineNoNewline(count: nat)
    ensures '\n' !in DashLine(count)
  {
    var dashes := Repeat('-', 3 * count + 1);
    assert forall c :: 0 <= c < |dashes| ==> dashes[c] == '-';
  }

  lemma NameLineNoNewline(names: seq<string>, k: nat)
    requires |names| > 0 && k < MaxLength(names)
    requires forall i :: 0 <= i < |names| ==> '\n' !in names[i]
    ensures '\n' !in NameLines(names)[k]
  {
    NameLinesAt(names, k);
    PaddedColumnNoNewline(names, k);
    NameLineOmitsNewline(PadNames(names), k);
  }

  lemma NameLinesAt(names: seq<string>, k: nat)
    requires |names| > 0 && k < MaxLength(names)
    ensures k < |NameLines(names)| && NameLines(names)[k] == NameLine(PadNames(names), k)
  {
  }

  lemma PaddedColumnNoNewline(names: seq<string>, k: nat)
    requires |names| > 0 && k < MaxLength(names)
    requires forall i :: 0 <= i < |names| ==> '\n' !in names[i]
    ensures forall i :: 0 <= i < |names| ==> k < |PadNames(names)[i]| && PadNames(names)[i][k] != '\n'
  {
    forall i | 0 <= i < |names|
      ensures k < |PadNames(names)[i]| && PadNames(names)[i][k] != '\n'
    {
      PaddedCharNoNewline(names, k, i);
    }
  }

  lemma NameLineOmitsNewline(padded: seq<string>, k: nat)
    requires forall i :: 0 <= i < |padded| ==> k < |padded[i]| && padded[i][k] != '\n'
    ensures '\n' !in NameLine(padded, k)
  {
    NameCellsNoNewline(padded, k);
    assert '\n' !in "    " && '\n' !in " ";
  }

  lemma PaddedCharNoNewline(names: seq<string>, k: nat, i: nat)
    requires |names| > 0
    requires k < MaxLength(names) && i < |names|
    requires '\n' !in names[i]
    ensures PadNames(names)[i][k] != '\n'
  {
    PaddedChar(names, k, i);
    if k < |names[i]| {
      assert names[i][k] in names[i];
    }
  }

  lemma {:induction false} NameCellsNoNewline(padded: seq<string>, k: nat)
    requires forall i :: 0 <= i < |padded| ==> k < |padded[i]| && padded[i][k] != '\n'
    ensures '\n' !in NameCells(padded, k)
  {
    if padded != [] {
      NameCellsNoNewline(padded[..|padded| - 1], k);
    }
  }

  /** The returned chart is its lines joined by newlines, with no newline at the end. */
  lemma ChartIsJoinedLines(names: seq<string>, ledgers: seq<seq<Entry>>)
    requires |names| == |ledgers| > 0
    requires IntSum(Spends(ledgers)) != 0
    ensures ChartText(names, ledgers) == JoinLines(ChartLines(names, Percentages(Spends(ledgers))))
  {
    var percentages := Percentages(Spends(ledgers));
    LastChartLine(names, percentages);
    StripTerminated(ChartLines(names, percentages));
  }

  /** The chart's lines, each newline-terminated, are the title, the bars and the footer in turn. */
  lemma ChartInThreeParts(names: seq<string>, percentages: seq<int>)
    requires |names| > 0
    ensures Terminated(ChartLines(names, percentages))
         == ChartTitle + "\n" + Terminated(BarLines(percentages)) + Terminated([DashLine(|names|)] + NameLines(names))
  {
    var head, bars, footer := [ChartTitle], BarLines(percentages), [DashLine(|names|)] + NameLines(names);
    assert ChartLines(names, percentages) == (head + bars) + footer;
    TerminatedAppend(head + bars, footer);
    TerminatedAppend(head, bars);
    TerminatedSingle(ChartTitle);
  }

  /** The chart's last line, the axis or the last footer row, ends in a dash or a space. */
  lemma LastChartLine(names: seq<string>, percentages: seq<int>)
    requires |names| > 0
    ensures var lines := ChartLines(names, percentages);
      var last := lines[|lines| - 1];
      |last| > 0 && last[|last| - 1] != '\n'
  {
    var lines := ChartLines(names, percentages);
    var last := lines[|lines| - 1];
    if MaxLength(names) == 0 {
      assert last == DashLine(|names|);
      assert last[|last| - 1] == '-';
    } else {
      assert last == NameLines(names)[MaxLength(names) - 1];
      assert last[|last| - 1] == ' ';
    }
  }

  /**
   * Read line by line (names free of newlines), the chart is exactly its
   * title, the 11 bar rows, the axis and the footer rows.
   */
  lemma SpendChartLines(names: seq<string>, ledgers: seq<seq<Entry>>)
    requires |names| == |ledgers| > 0
    requires IntSum(Spends(ledgers)) != 0
    requires forall i :: 0 <= i < |names| ==> '\n' !in names[i]
    ensures SplitLines(ChartText(names, ledgers)) == ChartLines(names, Percentages(Spends(ledgers)))
    ensures |SplitLines(ChartText(names, ledgers))| == 13 + MaxLength(names)
  {
    var lines := ChartLines(names, Percentages(Spends(ledgers)));
    ChartIsJoinedLines(names, ledgers);
    NoNewlineInChartLines(names, Percentages(Spends(ledgers)));
    SplitJoinLines(lines);
  }

  /** The percentages the chart draws all lie in 0, 10, ..., 100. */
  lemma ChartPercentagesInRange(ledgers: seq<seq<Entry>>)
    requires IntSum(Spends(ledgers)) != 0
    ensures forall i :: 0 <= i < |ledgers| ==>
      0 <= Percentages(Spends(ledgers))[i] <= 100 && Percentages(Spends(ledgers))[i] % 10 == 0
  {
    PercentagesInRange(Spends(ledgers));
  }
}

/**
 * The budget categories themselves: a category object owns its name and a
 * ledger it appends to, and `CreateSpendChart` draws the chart for a list of
 * them.  Each method is proved against the functions of Ledger, Report and
 * SpendChart.
 */
module Budget {
  import opened Text
  import opened Ledger
  import Report
  import opened SpendChart

  class Category {
    const name: string
    var ledger: seq<Entry>

    /** A new category has the given name and an empty ledger (balance 0). */
    constructor (name: string)
      ensures this.name == name && ledger == []
      ensures Balance(ledger) == 0
    {
      this.name := name;
      ledger := [];
    }

    /** Appends `(amount, description)`; no check is made on the amount. */
    method Deposit(amount: int, description: string := "")
      modifies this
      ensures ledger == old(ledger) + [Entry(amount, description)]
      ensures Balance(ledger) == old(Balance(ledger)) + amount
    {
      BalanceAppendEntry(ledger, Entry(amount, description));
      ledger := ledger + [Entry(amount, description)];
    }

    /** Adds up the amounts of the ledger, first to last. */
    method GetBalance() returns (balance: int)
      ensures balance == Balance(ledger)
    {
      balance := 0;
      for i := 0 to |ledger|
        invariant balance == Balance(ledger[..i])
      {
        assert ledger[..i + 1][..i] == ledger[..i];
        balance := balance + ledger[i].amount;
      }
      assert ledger[..|ledger|] == ledger;
    }

    /** The one gate on spending: is the balance at least `amount`? */
    method CheckFunds(amount: int) returns (ok: bool)
      ensures ok <==> Balance(ledger) >= amount
    {
      var balance := GetBalance();
      ok := balance >= amount;
    }

    /**
     * With enough funds, records the withdrawal as the negated amount and
     * answers true; otherwise leaves the ledger alone and answers false.
     */
    method Withdraw(amount: int, description: string := "") returns (ok: bool)
      modifies this
      ensures ok <==> old(Balance(ledger)) >= amount
      ensures ok ==> ledger == old(ledger) + [Entry(-amount, description)]
      ensures !ok ==> ledger == old(ledger)
      ensures Balance(ledger) == old(Balance(ledger)) - if ok then amount else 0
    {
      ok := CheckFunds(amount);
      if ok {
        BalanceAppendEntry(ledger, Entry(-amount, description));
        ledger := ledger + [Entry(-amount, description)];
      }
    }

    /**
     * Moves `amount` to `destination` when this category can afford it:
     * a withdrawal "Transfer to <destination>" here, then a deposit
     * "Transfer from <this>" there.  Without the funds nothing changes on
     * either side.  A transfer to itself appends both entries to the one
     * ledger.  Either way the money in the two categories together is
     * the same afterwards.
     */
    method Transfer(amount: int, destination: Category) returns (ok: bool)
      modifies this, destination
      ensures ok <==> old(Balance(ledger)) >= amount
      ensures !ok ==> ledger == old(ledger) && destination.ledger == old(destination.ledger)
      ensures ok && destination != this ==>
        && ledger == old(ledger) + [Entry(-amount, "Transfer to " + destination.name)]
        && destination.ledger == old(destination.ledger) + [Entry(amount, "Transfer from " + name)]
      ensures ok && destination == this ==>
        ledger == old(ledger) + [Entry(-amount, "Transfer to " + name), Entry(amount, "Transfer from " + name)]
      ensures destination != this ==>
        && Balance(ledger) == old(Balance(ledger)) - (if ok then amount else 0)
        && Balance(destination.ledger) == old(Balance(destination.ledger)) + (if ok then amount else 0)
      ensures destination != this ==>
        Balance(ledger) + Balance(destination.ledger) == old(Balance(ledger) + Balance(destination.ledger))
      ensures destination == this ==> Balance(ledger) == old(Balance(ledger))
    {
      var funded := CheckFunds(amount);
      if funded {
        var withdrawn := Withdraw(amount, "Transfer to " + destination.name);
        assert withdrawn;
        destination.Deposit(amount, "Transfer from " + name);
        return true;
      }
      return false;
    }

    /** The printout of `str(category)`, built line by line. */
    method ToString() returns (s: string)
      ensures s == Report.Render(name, ledger)
    {
      var titleLine := Report.Title(name);
      var ledgerLines: seq<string> := [];
      for i := 0 to |ledger|
        invariant ledgerLines == Report.EntryLines(ledger[..i])
      {
        assert ledger[..i + 1][..i] == ledger[..i];
        ledgerLines := ledgerLines + [Report.EntryLine(ledger[i])];
      }
      assert ledger[..|ledger|] == ledger;
      var balance := GetBalance();
      s := titleLine + "\n" + JoinLines(ledgerLines) + "\n" + Report.TotalLine(balance);
    }
  }

  /** The names of the categories, in order. */
  function NamesOf(categories: seq<Category>): (names: seq<string>)
    ensures |names| == |categories|
    ensures forall i :: 0 <= i < |categories| ==> names[i] == categories[i].name
  {
    if categories == [] then []
    else NamesOf(categories[..|categories| - 1]) + [categories[|categories| - 1].name]
  }

  /** The ledgers of the categories, in order, as they are now. */
  function LedgersOf(categories: seq<Category>): (ledgers: seq<seq<Entry>>)
    reads categories
    ensures |ledgers| == |categories|
    ensures forall i :: 0 <= i < |categories| ==> ledgers[i] == categories[i].ledger
  {
    if categories == [] then []
    else LedgersOf(categories[..|categories| - 1]) + [categories[|categories| - 1].ledger]
  }

  /**
   * `create_spend_chart`: sums each category's withdrawals, turns them into
   * percentages of the total, and draws the bars and the footer.  Python
   * fails on an empty list (`max` of nothing) and when nothing was spent
   * (division by zero); here both are excluded by the precondition.
   */
  method CreateSpendChart(categories: seq<Category>) returns (chart: string)
    requires |categories| > 0
    requires IntSum(Spends(LedgersOf(categories))) != 0
    ensures chart == ChartText(NamesOf(categories), LedgersOf(categories))
  {
    ghost var ledgers := LedgersOf(categories);
    var title := ChartTitle + "\n";
    var spendAmount := SpendAmounts(categories);
    var percentages := Percentages(spendAmount);
    var bars := DrawBars(percentages);
    assert LedgersOf(categories) == ledgers;
    var names := NamesOf(categories);
    var footer := DrawFooter(names);
    assert LedgersOf(categories) == ledgers;
    ChartInThreeParts(names, percentages);
    chart := RStripNewlines(title + bars + footer);
    assert chart == RStripNewlines(Terminated(ChartLines(names, percentages)));
    assert chart == ChartText(names, ledgers);
  }

  /** The first loop of `create_spend_chart`: each category's withdrawals summed. */
  method SpendAmounts(categories: seq<Category>) returns (spendAmount: seq<int>)
    ensures spendAmount == Spends(LedgersOf(categories))
  {
    spendAmount := [];
    for c := 0 to |categories|
      invariant |spendAmount| == c
      invariant forall j :: 0 <= j < c ==> spendAmount[j] == Spend(categories[j].ledger)
    {
      var spend := 0;
      var items := categories[c].ledger;
      for k := 0 to |items|
        invariant spend == Spend(items[..k])
      {
        assert items[..k + 1][..k] == items[..k];
        if items[k].amount < 0 {
          spend := spend + items[k].amount;
        }
      }
      assert items[..|items|] == items;
      spendAmount := spendAmount + [spend];
    }
  }

  /** The eleven bar rows, 100 down to 0, each followed by a newline. */
  method DrawBars(percentages: seq<int>) returns (bars: string)
    ensures bars == Terminated(BarLines(percentages))
  {
    bars := "";
    for row := 0 to 11
      invariant bars == Terminated(BarLines(percentages)[..row])
    {
      var line := DrawBarRow(percentages, RowValue(row));
      ghost var done := BarLines(percentages)[..row + 1];
      assert done[..row] == BarLines(percentages)[..row];
      assert done[row] == line;
      bars := bars + line + "\n";
    }
    assert BarLines(percentages)[..11] == BarLines(percentages);
  }

  /** One bar row: the label, `|`, a cell per category, a trailing space. */
  method DrawBarRow(percentages: seq<int>, value: nat) returns (line: string)
    ensures line == BarLine(percentages, value)
  {
    line := RJust(NatDigits(value), 3) + "|";
    for j := 0 to |percentages|
      invariant line == RJust(NatDigits(value), 3) + "|" + BarCells(percentages[..j], value)
    {
      assert percentages[..j + 1][..j] == percentages[..j];
      if percentages[j] >= value {
        line := line + " o ";
      } else {
        line := line + "   ";
      }
    }
    assert percentages[..|percentages|] == percentages;
    line := line + " ";
  }

  /** The dashed axis and the names written downwards, each row followed by a newline. */
  method DrawFooter(names: seq<string>) returns (footer: string)
    requires |names| > 0
    ensures footer == Terminated([DashLine(|names|)] + NameLines(names))
  {
    var dash := DashLine(|names|);
    ghost var rows := NameLines(names);
    footer := dash + "\n";
    TerminatedSingle(dash);
    var maxLength := MaxLength(names);
    var padded := PadNames(names);
    for k := 0 to maxLength
      invariant footer == Terminated([dash] + rows[..k])
    {
      NameLinesAt(names, k);
      TerminatedSnoc([dash] + rows[..k], rows[k]);
      ExtendSlice([dash], rows, k);
      footer := footer + NameLine(padded, k) + "\n";
    }
    assert rows[..maxLength] == rows;
  }

}
